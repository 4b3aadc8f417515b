/** The parsed page as linked nodes, and the walk that unlinks chrome in place
    (internal/brain/api/kb_html.go). */
module HtmlWalk {
  import opened HtmlChrome

  /** A node of the page.  Links change; what the node is does not. */
  class Node {
    const kind: Kind
    const data: string
    const attrs: seq<Attr>
    var parent: Node?
    var firstChild: Node?
    var lastChild: Node?
    var prev: Node?
    var next: Node?

    constructor (kind: Kind, data: string, attrs: seq<Attr>)
      ensures this.kind == kind && this.data == data && this.attrs == attrs
      ensures parent == null && firstChild == null && lastChild == null && prev == null && next == null
    {
      this.kind, this.data, this.attrs := kind, data, attrs;
      parent, firstChild, lastChild, prev, next := null, null, null, null, null;
    }
  }

  /** The nodes of a subtree in their places. */
  datatype Shape = Shape(n: Node, kids: seq<Shape>)

  ghost function Nodes(s: Shape): set<Node>
    decreases s, 1
  {
    {s.n} + NodesAll(s.kids)
  }

  ghost function NodesAll(ss: seq<Shape>): set<Node>
    decreases ss, 0
  {
    if ss == [] then {} else Nodes(ss[0]) + NodesAll(ss[1..])
  }

  /** No node has two places. */
  ghost predicate Distinct(s: Shape)
    decreases s, 1
  {
    s.n !in NodesAll(s.kids) && DistinctAll(s.kids)
  }

  ghost predicate DistinctAll(ss: seq<Shape>)
    decreases ss, 0
  {
    ss == [] || (Distinct(ss[0]) && Nodes(ss[0]) !! NodesAll(ss[1..]) && DistinctAll(ss[1..]))
  }

  /** The shape as a value. */
  ghost function TreeOf(s: Shape): Tree
    decreases s, 1
  {
    Tree(s.n.kind, s.n.data, s.n.attrs, TreesOf(s.kids))
  }

  ghost function TreesOf(ss: seq<Shape>): seq<Tree>
    decreases ss, 0
  {
    if ss == [] then [] else [TreeOf(ss[0])] + TreesOf(ss[1..])
  }

  ghost function At(ns: seq<Node>, i: int): Node? {
    if 0 <= i < |ns| then ns[i] else null
  }

  /** The i-th child hangs where the list says. */
  ghost predicate Placed(p: Node, ns: seq<Node>, i: int)
    requires 0 <= i < |ns|
    reads {ns[i]}`parent, {ns[i]}`prev, {ns[i]}`next
  {
    ns[i].parent == p && ns[i].prev == At(ns, i - 1) && ns[i].next == At(ns, i + 1)
  }

  /** The sibling list under `p` is linked as `ns`. */
  ghost predicate Row(p: Node, ns: seq<Node>)
    reads {p}`firstChild, {p}`lastChild, ns`parent, ns`prev, ns`next
  {
    && p.firstChild == At(ns, 0)
    && p.lastChild == At(ns, |ns| - 1)
    && forall i {:trigger Placed(p, ns, i)} | 0 <= i < |ns| :: Placed(p, ns, i)
  }

  ghost predicate NoRepeats(p: Node, ns: seq<Node>) {
    p !in ns && forall i, j | 0 <= i < j < |ns| :: ns[i] != ns[j]
  }

  /** The library's RemoveChild: unlink `c`, the child between `a` and `b`. */
  method RemoveChild(p: Node, c: Node, ghost a: seq<Node>, ghost b: seq<Node>, ghost ns: seq<Node>)
    requires ns == a + [c] + b && Row(p, ns) && NoRepeats(p, ns)
    modifies {p}`firstChild, {p}`lastChild, ns`parent, ns`prev, ns`next
    ensures Row(p, a + b)
  {
    ghost var i := |a|;
    assert ns[i] == c && Placed(p, ns, i);
    assert i > 0 ==> c.prev == ns[i-1] && Placed(p, ns, i - 1);
    assert i + 1 < |ns| ==> c.next == ns[i+1] && Placed(p, ns, i + 1);
    if p.firstChild == c {
      p.firstChild := c.next;
    }
    if c.next != null {
      c.next.prev := c.prev;
    }
    if p.lastChild == c {
      p.lastChild := c.prev;
    }
    if c.prev != null {
      c.prev.next := c.next;
    }
    c.parent, c.prev, c.next := null, null, null;
    ghost var left := a + b;
    forall k {:trigger Placed(p, left, k)} | 0 <= k < |left| ensures Placed(p, left, k) {
      var j := if k < i then k else k + 1;
      assert left[k] == ns[j];
      assert old(Placed(p, ns, j));
    }
  }

  /** The roots of the sibling shapes, in order. */
  ghost function Tops(ss: seq<Shape>): (ns: seq<Node>)
    ensures |ns| == |ss| && forall i | 0 <= i < |ss| :: ns[i] == ss[i].n
  {
    seq(|ss|, i requires 0 <= i < |ss| => ss[i].n)
  }

  /** The nodes strictly below the roots of `ss`. */
  ghost function Inner(ss: seq<Shape>): set<Node> {
    if ss == [] then {} else NodesAll(ss[0].kids) + Inner(ss[1..])
  }

  /** Every sibling list of the subtree is linked as the shape says; the root's own place is not covered. */
  ghost predicate Linked(s: Shape)
    reads {s.n}`firstChild, {s.n}`lastChild, NodesAll(s.kids)
    decreases s, 1
  {
    AllCovered(s.kids);
    Row(s.n, Tops(s.kids)) && LinkedAll(s.kids)
  }

  ghost predicate LinkedAll(ss: seq<Shape>)
    reads Tops(ss)`firstChild, Tops(ss)`lastChild, Inner(ss)
    decreases ss, 0
  {
    ss == [] || (Linked(ss[0]) && LinkedAll(ss[1..]))
  }

  lemma {:induction false} AllCovered(ss: seq<Shape>)
    ensures NodesAll(ss) == (set n | n in Tops(ss)) + Inner(ss)
    ensures forall s | s in ss :: Nodes(s) <= NodesAll(ss) && s.n in NodesAll(ss)
  {
    if ss != [] {
      AllCovered(ss[1..]);
      assert Nodes(ss[0]) == {ss[0].n} + NodesAll(ss[0].kids);
      assert Tops(ss) == [ss[0].n] + Tops(ss[1..]);
    }
  }

  lemma {:induction false} NodesAppend(a: seq<Shape>, b: seq<Shape>)
    ensures NodesAll(a + b) == NodesAll(a) + NodesAll(b)
  {
    if a == [] {
      assert a + b == b;
    } else {
      assert (a + b)[1..] == a[1..] + b;
      NodesAppend(a[1..], b);
    }
  }

  lemma {:induction false} AllAppend(a: seq<Shape>, b: seq<Shape>)
    ensures NodesAll(a + b) == NodesAll(a) + NodesAll(b)
    ensures DistinctAll(a + b) <==> DistinctAll(a) && DistinctAll(b) && NodesAll(a) !! NodesAll(b)
  {
    NodesAppend(a, b);
    if a == [] {
      assert a + b == b;
    } else {
      assert (a + b)[1..] == a[1..] + b;
      NodesAppend(a[1..], b);
      AllAppend(a[1..], b);
    }
  }

  lemma {:induction false} LinkedAppend(a: seq<Shape>, b: seq<Shape>)
    ensures LinkedAll(a + b) <==> LinkedAll(a) && LinkedAll(b)
  {
    if a == [] {
      assert a + b == b;
    } else {
      assert (a + b)[1..] == a[1..] + b;
      LinkedAppend(a[1..], b);
    }
  }

  /** Siblings are different nodes, and none of them is inside another. */
  lemma {:induction false} SiblingsApart(p: Node, ss: seq<Shape>)
    requires DistinctAll(ss) && p !in NodesAll(ss)
    ensures NoRepeats(p, Tops(ss)) && forall n | n in Tops(ss) :: n !in Inner(ss)
  {
    AllCovered(ss);
    if ss != [] {
      SiblingsApart(p, ss[1..]);
      AllCovered(ss[1..]);
      assert Tops(ss) == [ss[0].n] + Tops(ss[1..]);
      assert Nodes(ss[0]) == {ss[0].n} + NodesAll(ss[0].kids);
    }
  }

  /** The parents of `n`, nearest first, up to the root. */
  ghost predicate Chain(n: Node, anc: seq<Node>)
    reads {n}`parent, anc`parent
  {
    if anc == [] then n.parent == null
    else n.parent == anc[0] && Chain(anc[0], anc[1..])
  }

  /** The page level a node's nearest sectioning ancestor gives it. */
  ghost function PageOf(anc: seq<Node>): bool {
    if anc == [] then true
    else if anc[0].kind == Element && anc[0].data in SECTIONING_TAGS then anc[0].data == "body"
    else PageOf(anc[1..])
  }

  method IsPageChrome(n: Node, ghost anc: seq<Node>) returns (page: bool)
    requires Chain(n, anc)
    ensures page == PageOf(anc)
  {
    var p := n.parent;
    ghost var rest := anc;
    while p != null
      invariant p == At(rest, 0) && PageOf(anc) == PageOf(rest)
      invariant rest != [] ==> Chain(rest[0], rest[1..])
      decreases |rest|
    {
      if p.kind == Element && p.data in SECTIONING_TAGS {
        return p.data == "body";
      }
      p := p.parent;
      rest := rest[1..];
    }
    page := true;
  }

  method IsChrome(n: Node, ghost anc: seq<Node>) returns (chrome: bool)
    requires Chain(n, anc)
    ensures chrome == Chrome(n.data, n.attrs, PageOf(anc))
  {
    if n.data in CHROME_TAGS {
      return true;
    }
    if HeaderLike(n.data) {
      chrome := IsPageChrome(n, anc);
      return;
    }
    for i := 0 to |n.attrs|
      invariant forall j | 0 <= j < i :: !ChromeAttr(n.attrs[j])
    {
      if ChromeAttr(n.attrs[i]) {
        return true;
      }
    }
    chrome := false;
  }

  lemma {:induction false} InnerAppend(a: seq<Shape>, b: seq<Shape>)
    ensures Inner(a + b) == Inner(a) + Inner(b)
  {
    if a == [] {
      assert a + b == b;
    } else {
      assert (a + b)[1..] == a[1..] + b;
      InnerAppend(a[1..], b);
    }
  }

  /** Nothing a sibling list's links are read from lies inside the subtrees hanging there. */
  ghost predicate Outside(n: Node, ns: seq<Node>, inner: set<Node>) {
    n !in inner && forall m | m in ns :: m !in inner
  }

  /** Unlinking a child leaves the subtrees of the others linked. */
  method UnlinkBeside(n: Node, child: Node, ghost a: seq<Node>, ghost b: seq<Node>, ghost row: seq<Node>,
                      ghost others: seq<Shape>, ghost left: seq<Node>, ghost inner: set<Node>)
    requires row == a + [child] + b && Row(n, row) && NoRepeats(n, row) && Outside(n, row, inner)
    requires left == a + b && left == Tops(others) && inner == Inner(others) && LinkedAll(others)
    modifies {n}`firstChild, {n}`lastChild, row`parent, row`prev, row`next
    ensures Row(n, Tops(others)) && LinkedAll(others)
  {
    assert n !in left;
    RemoveChild(n, child, a, b, row);
    assert forall m: Node | m in left :: m.firstChild == old(m.firstChild) && m.lastChild == old(m.lastChild);
    assert forall m: Node | m in inner ::
        && m.parent == old(m.parent) && m.prev == old(m.prev) && m.next == old(m.next)
        && m.firstChild == old(m.firstChild) && m.lastChild == old(m.lastChild);
  }

  // The walk's list of children is `all`; those before `k` are kept and stripped already.

  ghost function Without(all: seq<Shape>, k: nat): seq<Shape>
    requires k < |all|
  {
    all[..k] + all[k+1..]
  }

  lemma SplitHere(all: seq<Shape>, k: nat)
    requires k < |all|
    ensures all == all[..k] + all[k..] && all[k..][0] == all[k] && all[k..][1..] == all[k+1..]
  {
  }

  lemma SplitNodes(all: seq<Shape>, k: nat)
    requires k < |all|
    ensures NodesAll(all) == NodesAll(all[..k]) + Nodes(all[k]) + NodesAll(all[k+1..])
    ensures Inner(all) == Inner(all[..k]) + NodesAll(all[k].kids) + Inner(all[k+1..])
    ensures Nodes(all[k]) == {all[k].n} + NodesAll(all[k].kids)
  {
    SplitHere(all, k);
    AllAppend(all[..k], all[k..]);
    InnerAppend(all[..k], all[k..]);
  }

  /** Distinctness of a list, around one of its entries. */
  ghost predicate Around(a: seq<Shape>, s: Shape, b: seq<Shape>) {
    && DistinctAll(a) && Distinct(s) && DistinctAll(b)
    && NodesAll(a) !! Nodes(s) && NodesAll(a) !! NodesAll(b) && Nodes(s) !! NodesAll(b)
  }

  lemma SplitAt(all: seq<Shape>, k: nat)
    requires k < |all|
    ensures DistinctAll(all) <==> Around(all[..k], all[k], all[k+1..])
  {
    SplitHere(all, k);
    AllAppend(all[..k], all[k..]);
    assert NodesAll(all[k..]) == Nodes(all[k]) + NodesAll(all[k+1..]);
  }

  lemma WithoutApart(all: seq<Shape>, k: nat)
    requires k < |all| && DistinctAll(all)
    ensures NodesAll(Without(all, k)) <= NodesAll(all) && Inner(Without(all, k)) <= Inner(all)
    ensures DistinctAll(Without(all, k))
    ensures Nodes(all[k]) !! NodesAll(Without(all, k))
  {
    SplitNodes(all, k);
    SplitAt(all, k);
    AllAppend(all[..k], all[k+1..]);
    InnerAppend(all[..k], all[k+1..]);
  }

  lemma UpdateApart(all: seq<Shape>, k: nat, kept: Shape)
    requires k < |all| && DistinctAll(all)
    requires kept.n == all[k].n && Distinct(kept) && Nodes(kept) <= Nodes(all[k])
    ensures NodesAll(all[k := kept]) <= NodesAll(all) && DistinctAll(all[k := kept])
    ensures Tops(all[k := kept]) == Tops(all)
  {
    SplitNodes(all, k);
    SplitAt(all, k);
    var u := all[k := kept];
    assert u[..k] == all[..k] && u[k+1..] == all[k+1..];
    SplitNodes(u, k);
    SplitAt(u, k);
  }

  lemma LinkedSplit(all: seq<Shape>, k: nat)
    requires k < |all|
    ensures LinkedAll(all) <==> LinkedAll(Without(all, k)) && Linked(all[k])
  {
    var a, b := all[..k], all[k..];
    assert all == a + b;
    assert b[1..] == all[k+1..];
    LinkedAppend(a, b);
    LinkedAppend(a, all[k+1..]);
  }

  lemma LinkedUpdate(all: seq<Shape>, k: nat, kept: Shape)
    requires k < |all| && Linked(kept) && LinkedAll(Without(all, k))
    ensures LinkedAll(all[k := kept])
  {
    assert Without(all[k := kept], k) == Without(all, k);
    LinkedSplit(all[k := kept], k);
  }

  /** The children as they will be once the rest is walked too. */
  ghost function Halfway(ts: seq<Tree>, k: nat, page: bool): seq<Tree>
    requires k <= |ts|
  {
    ts[..k] + StripAll(ts[k..], page)
  }

  lemma {:induction false} TreesAt(all: seq<Shape>)
    ensures |TreesOf(all)| == |all| && forall i | 0 <= i < |all| :: TreesOf(all)[i] == TreeOf(all[i])
  {
    if all != [] { TreesAt(all[1..]); }
  }

  lemma HalfwayWithout(all: seq<Shape>, k: nat, page: bool)
    requires k < |all| && |TreesOf(all)| == |all| && |TreesOf(Without(all, k))| == |all| - 1
    requires Dropped(TreeOf(all[k]), page)
    ensures Halfway(TreesOf(Without(all, k)), k, page) == Halfway(TreesOf(all), k, page)
  {
    TreesAt(all);
    TreesAt(Without(all, k));
    assert TreesOf(Without(all, k)) == TreesOf(all)[..k] + TreesOf(all)[k+1..];
    HalfwayDropped(TreesOf(all), TreesOf(Without(all, k)), k, page);
  }

  lemma HalfwayDropped(ts: seq<Tree>, us: seq<Tree>, k: nat, page: bool)
    requires k < |ts| && Dropped(ts[k], page) && us == ts[..k] + ts[k+1..]
    ensures Halfway(us, k, page) == Halfway(ts, k, page)
  {
    assert us[..k] == ts[..k];
    assert us[k..] == ts[k..][1..];
  }

  lemma HalfwayUpdate(all: seq<Shape>, k: nat, kept: Shape, page: bool)
    requires k < |all| && |TreesOf(all)| == |all| && |TreesOf(all[k := kept])| == |all|
    requires TreeOf(kept) == Strip(TreeOf(all[k]), page) && !Dropped(TreeOf(all[k]), page)
    ensures Halfway(TreesOf(all[k := kept]), k + 1, page) == Halfway(TreesOf(all), k, page)
  {
    TreesAt(all);
    TreesAt(all[k := kept]);
    HalfwayStripped(TreesOf(all), TreesOf(all[k := kept]), k, page);
  }

  lemma HalfwayStripped(ts: seq<Tree>, us: seq<Tree>, k: nat, page: bool)
    requires k < |ts| == |us| && !Dropped(ts[k], page) && us[k] == Strip(ts[k], page)
    requires forall i | 0 <= i < |ts| && i != k :: us[i] == ts[i]
    ensures Halfway(us, k + 1, page) == Halfway(ts, k, page)
  {
    var rest := StripAll(ts[k+1..], page);
    assert us[k+1..] == ts[k+1..] == ts[k..][1..];
    assert StripAll(ts[k..], page) == [us[k]] + rest;
    assert us[..k+1] == ts[..k] + [us[k]];
  }

  /** Unlink the child about to be walked. */
  method DropAt(n: Node, child: Node, ghost all: seq<Shape>, ghost k: nat, ghost row: seq<Node>)
    requires k < |all| && all[k].n == child && n !in NodesAll(all)
    requires DistinctAll(all) && LinkedAll(all) && row == Tops(all) && Row(n, row)
    modifies {n}`firstChild, {n}`lastChild, row`parent, row`prev, row`next
    ensures Row(n, Tops(Without(all, k))) && LinkedAll(Without(all, k))
  {
    ghost var a, b, others := Tops(all[..k]), Tops(all[k+1..]), Without(all, k);
    TopsWithout(all, k);
    LinkedSplit(all, k);
    RowOutside(n, all, k, row);
    UnlinkBeside(n, child, a, b, row, others, a + b, Inner(others));
  }

  lemma TopsAppend(a: seq<Shape>, b: seq<Shape>)
    ensures Tops(a + b) == Tops(a) + Tops(b)
  {
  }

  lemma TopsWithout(all: seq<Shape>, k: nat)
    requires k < |all|
    ensures Tops(all) == Tops(all[..k]) + [all[k].n] + Tops(all[k+1..])
    ensures Tops(Without(all, k)) == Tops(all[..k]) + Tops(all[k+1..])
  {
    var a, b := all[..k], all[k+1..];
    assert all == a + [all[k]] + b;
    TopsAppend(a, [all[k]]);
    TopsAppend(a + [all[k]], b);
    TopsAppend(a, b);
    assert Tops([all[k]]) == [all[k].n];
  }

  lemma RowOutside(n: Node, all: seq<Shape>, k: nat, row: seq<Node>)
    requires k < |all| && DistinctAll(all) && n !in NodesAll(all) && row == Tops(all)
    ensures NoRepeats(n, row) && Outside(n, row, Inner(Without(all, k)))
  {
    SiblingsApart(n, all);
    AllCovered(all);
    WithoutApart(all, k);
  }

  lemma {:induction false} TopsInside(ss: seq<Shape>)
    ensures forall m | m in Tops(ss) :: m in NodesAll(ss)
  {
    AllCovered(ss);
  }

  /** Strip a child that stays, leaving its siblings and their subtrees as they are. */
  method Descend(n: Node, child: Node, ghost shape: Shape, ghost up: seq<Node>,
                 ghost row: seq<Node>, ghost below: set<Node>, ghost others: seq<Shape>, ghost left: seq<Node>,
                 ghost inner: set<Node>)
    returns (ghost kept: Shape)
    requires shape.n == child && Distinct(shape) && Linked(shape)
    requires Chain(child, up) && (set m | m in up) !! Nodes(shape)
    requires Row(n, row) && n !in below && n != child
    requires below == NodesAll(shape.kids) && Outside(n, row, below)
    requires left == Tops(others) && inner == Inner(others)
    requires LinkedAll(others) && child !in left && child !in inner
    requires Outside(n, left, below) && inner !! below
    modifies {child}`firstChild, {child}`lastChild, below
    ensures kept.n == child && Distinct(kept) && Linked(kept) && Nodes(kept) <= Nodes(shape)
    ensures TreeOf(kept) == Strip(TreeOf(shape), PageOf(up))
    ensures Row(n, row) && LinkedAll(others)
    decreases shape, 2
  {
    kept := StripChromeNodes(child, shape, up);
    assert forall m: Node | m in left :: m.firstChild == old(m.firstChild) && m.lastChild == old(m.lastChild);
    assert forall m: Node | m in inner ::
        && m.parent == old(m.parent) && m.prev == old(m.prev) && m.next == old(m.next)
        && m.firstChild == old(m.firstChild) && m.lastChild == old(m.lastChild);
    assert forall m: Node | m in row :: m.parent == old(m.parent) && m.prev == old(m.prev) && m.next == old(m.next);
  }

  lemma DescendApart(n: Node, all: seq<Shape>, k: nat)
    requires k < |all| && n !in NodesAll(all) && DistinctAll(all)
    ensures var below, others, child := NodesAll(all[k].kids), Without(all, k), all[k].n;
            && Distinct(all[k]) && n !in below && n != child
            && Outside(n, Tops(all), below) && Outside(n, Tops(others), below)
            && child !in Tops(others) && child !in Inner(others) && Inner(others) !! below
  {
    SplitNodes(all, k);
    SplitAt(all, k);
    WithoutApart(all, k);
    AllCovered(Without(all, k));
    SiblingsApart(n, all);
  }

  method KeepAt(n: Node, child: Node, ghost all: seq<Shape>, ghost k: nat, ghost up: seq<Node>,
                ghost row: seq<Node>, ghost below: set<Node>)
    returns (ghost kept: Shape)
    requires k < |all| && all[k].n == child && n !in NodesAll(all)
    requires DistinctAll(all) && LinkedAll(all) && row == Tops(all) && Row(n, row)
    requires below == NodesAll(all[k].kids)
    requires Chain(child, up) && (set m | m in up) !! Nodes(all[k])
    modifies {child}`firstChild, {child}`lastChild, below
    ensures kept.n == child && Distinct(kept) && Nodes(kept) <= Nodes(all[k])
    ensures TreeOf(kept) == Strip(TreeOf(all[k]), PageOf(up))
    ensures Row(n, row) && LinkedAll(all[k := kept])
    decreases all[k], 3
  {
    ghost var others := Without(all, k);
    DescendApart(n, all, k);
    LinkedSplit(all, k);
    kept := Descend(n, child, all[k], up, row, below, others, Tops(others), Inner(others));
    LinkedUpdate(all, k, kept);
  }

  /** One turn of the walk: the child is unlinked or walked into, and the next one is at hand. */
  method Visit(n: Node, child: Node, ghost all: seq<Shape>, ghost k: nat, ghost up: seq<Node>,
               ghost row: seq<Node>, ghost below: set<Node>, ghost inner: set<Node>, ghost scope: set<Node>)
    returns (chrome: bool, ghost after: seq<Shape>)
    requires k < |all| && all[k].n == child && n !in NodesAll(all) && row == Tops(all)
    requires DistinctAll(all) && LinkedAll(all) && Row(n, row) && inner == Inner(all)
    requires below == NodesAll(all[k].kids) && below <= scope && child in scope
    requires forall m | m in row :: m in scope
    requires Chain(child, up) && (set m | m in up) !! Nodes(all[k])
    modifies {n}`firstChild, {n}`lastChild, scope
    ensures Row(n, Tops(after)) && LinkedAll(after)
    ensures chrome <==> Dropped(TreeOf(all[k]), PageOf(up))
    ensures chrome ==> after == Without(all, k)
    ensures !chrome ==>
              && |after| == |all| && after == all[k := after[k]]
              && after[k].n == child && Distinct(after[k]) && Nodes(after[k]) <= Nodes(all[k])
              && TreeOf(after[k]) == Strip(TreeOf(all[k]), PageOf(up))
    decreases all[k], 4
  {
    chrome := child.kind == Element;
    if chrome {
      chrome := IsChrome(child, up);
      assert LinkedAll(all) by {
        assert forall m: Node | m in row :: m.firstChild == old(m.firstChild) && m.lastChild == old(m.lastChild);
        assert forall m: Node | m in inner ::
          && m.parent == old(m.parent) && m.prev == old(m.prev) && m.next == old(m.next)
          && m.firstChild == old(m.firstChild) && m.lastChild == old(m.lastChild);
      }
    }
    if chrome {
      DropAt(n, child, all, k, row);
      after := Without(all, k);
    } else {
      ghost var kept := KeepAt(n, child, all, k, up, row, below);
      UpdateApart(all, k, kept);
      after := all[k := kept];
    }
  }

  /** What the walk needs to know about the child at hand. */
  lemma AtHand(n: Node, all: seq<Shape>, k: nat, up: seq<Node>, anc: seq<Node>, scope: set<Node>)
    requires k < |all| && DistinctAll(all) && NodesAll(all) <= scope && n !in scope
    requires Row(n, Tops(all)) && up == [n] + anc && Chain(n, anc)
    requires (set a | a in anc) !! scope
    ensures n !in NodesAll(all) && NodesAll(all[k].kids) <= scope && all[k].n in scope
    ensures forall m | m in Tops(all) :: m in scope
    ensures Chain(all[k].n, up) && (set m | m in up) !! Nodes(all[k])
    ensures all[k].n.next == At(Tops(all), k + 1)
  {
    SplitNodes(all, k);
    TopsInside(all);
    assert Placed(n, Tops(all), k);
    assert up[1..] == anc;
  }

  /** How far the walk over `kids` has come: `all` is what is left of them, the first `k` stripped. */
  ghost predicate Underway(kids: seq<Shape>, all: seq<Shape>, k: nat, page: bool) {
    && k <= |all| && DistinctAll(all) && NodesAll(all) <= NodesAll(kids)
    && |TreesOf(all)| == |all|
    && Halfway(TreesOf(all), k, page) == StripAll(TreesOf(kids), page)
    && forall j | k <= j < |all| :: all[j] in kids
  }

  lemma UnderwayStarts(kids: seq<Shape>, page: bool)
    requires DistinctAll(kids)
    ensures Underway(kids, kids, 0, page)
  {
    TreesAt(kids);
  }

  lemma UnderwayWithout(kids: seq<Shape>, all: seq<Shape>, k: nat, page: bool)
    requires Underway(kids, all, k, page) && k < |all| && Dropped(TreeOf(all[k]), page)
    ensures Underway(kids, Without(all, k), k, page) && |Without(all, k)| == |all| - 1
    ensures At(Tops(Without(all, k)), k) == At(Tops(all), k + 1)
  {
    WithoutApart(all, k);
    TreesAt(Without(all, k));
    HalfwayWithout(all, k, page);
  }

  lemma UnderwayUpdate(kids: seq<Shape>, all: seq<Shape>, k: nat, page: bool, kept: Shape)
    requires Underway(kids, all, k, page) && k < |all| && !Dropped(TreeOf(all[k]), page)
    requires kept.n == all[k].n && Distinct(kept) && Nodes(kept) <= Nodes(all[k])
    requires TreeOf(kept) == Strip(TreeOf(all[k]), page)
    ensures Underway(kids, all[k := kept], k + 1, page) && Tops(all[k := kept]) == Tops(all)
  {
    UpdateApart(all, k, kept);
    TreesAt(all[k := kept]);
    HalfwayUpdate(all, k, kept, page);
  }

  lemma UnderwayEnds(kids: seq<Shape>, all: seq<Shape>, page: bool)
    requires Underway(kids, all, |all|, page)
    ensures DistinctAll(all) && NodesAll(all) <= NodesAll(kids) && TreesOf(all) == StripAll(TreesOf(kids), page)
  {
    assert TreesOf(all)[..|all|] == TreesOf(all);
  }

  /** The walk.  It leaves the subtree linked as the functional removal says, and touches nothing
      outside the subtree: not even its root's own place among its siblings. */
  method StripChromeNodes(n: Node, ghost s: Shape, ghost anc: seq<Node>) returns (ghost s': Shape)
    requires s.n == n && Distinct(s) && Linked(s)
    requires Chain(n, anc) && (set a | a in anc) !! Nodes(s)
    modifies {n}`firstChild, {n}`lastChild, NodesAll(s.kids)
    ensures s'.n == n && Distinct(s') && Linked(s') && Nodes(s') <= Nodes(s)
    ensures TreeOf(s') == Strip(TreeOf(s), PageOf(anc))
    decreases s, 1
  {
    ghost var all := WalkKids(n, s.kids, anc, NodesAll(s.kids));
    s' := Shape(n, all);
  }

  /** The children of `n` are linked as the shapes say, and so are their subtrees. */
  ghost predicate Standing(n: Node, all: seq<Shape>)
    reads {n}`firstChild, {n}`lastChild, NodesAll(all)
  {
    AllCovered(all);
    Row(n, Tops(all)) && LinkedAll(all)
  }

  /** What a turn leaves of the children, and where the walk is in them. */
  lemma TurnEnds(kids: seq<Shape>, all: seq<Shape>, k: nat, page: bool, after: seq<Shape>, chrome: bool)
    returns (k': nat)
    requires Underway(kids, all, k, page) && k < |all| && chrome == Dropped(TreeOf(all[k]), page)
    requires chrome ==> after == Without(all, k)
    requires !chrome ==>
               && |after| == |all| && after == all[k := after[k]]
               && after[k].n == all[k].n && Distinct(after[k]) && Nodes(after[k]) <= Nodes(all[k])
               && TreeOf(after[k]) == Strip(TreeOf(all[k]), page)
    ensures Underway(kids, after, k', page) && |after| - k' < |all| - k
    ensures k' <= |after| && At(Tops(after), k') == At(Tops(all), k + 1)
  {
    if chrome {
      UnderwayWithout(kids, all, k, page);
      k' := k;
    } else {
      UnderwayUpdate(kids, all, k, page, after[k]);
      k' := k + 1;
    }
  }

  /** One turn of the walk over `kids`. */
  method Turn(n: Node, child: Node, ghost kids: seq<Shape>, ghost all: seq<Shape>, ghost k: nat,
              ghost anc: seq<Node>, ghost up: seq<Node>, ghost scope: set<Node>)
    returns (next: Node?, ghost all': seq<Shape>, ghost k': nat)
    requires Underway(kids, all, k, PageOf(up)) && k < |all| && child == all[k].n
    requires scope == NodesAll(kids) && n !in scope
    requires Standing(n, all)
    requires up == [n] + anc && Chain(n, anc) && (set a | a in anc) !! scope
    modifies {n}`firstChild, {n}`lastChild, scope
    ensures Underway(kids, all', k', PageOf(up)) && k' <= |all'| && next == At(Tops(all'), k')
    ensures |all'| - k' < |all| - k
    ensures Standing(n, all')
    decreases kids, 4
  {
    AtHand(n, all, k, up, anc, scope);
    next := child.next;
    var chrome;
    chrome, all' := Visit(n, child, all, k, up, Tops(all), NodesAll(all[k].kids), Inner(all), scope);
    k' := TurnEnds(kids, all, k, PageOf(up), all', chrome);
  }

  method WalkKids(n: Node, ghost kids: seq<Shape>, ghost anc: seq<Node>, ghost scope: set<Node>)
    returns (ghost all: seq<Shape>)
    requires DistinctAll(kids) && scope == NodesAll(kids) && n !in scope
    requires Row(n, Tops(kids)) && LinkedAll(kids)
    requires Chain(n, anc) && (set a | a in anc) !! scope
    modifies {n}`firstChild, {n}`lastChild, scope
    ensures DistinctAll(all) && NodesAll(all) <= scope && Row(n, Tops(all)) && LinkedAll(all)
    ensures TreesOf(all) == StripAll(TreesOf(kids), PageOf([n] + anc))
    decreases kids, 5
  {
    var child := n.firstChild;
    all := kids;
    ghost var k: nat, up: seq<Node> := 0, [n] + anc;
    ghost var page := PageOf(up);
    UnderwayStarts(kids, page);
    while child != null
      invariant Underway(kids, all, k, page) && k <= |all| && child == At(Tops(all), k)
      invariant Standing(n, all) && Chain(n, anc)
      decreases |all| - k
    {
      child, all, k := Turn(n, child, kids, all, k, anc, up, scope);
    }
    assert k == |all|;
    UnderwayEnds(kids, all, page);
  }
}
