/** A whole page's stripping (internal/brain/api/kb_html.go, stripHTMLChrome): chrome out, then the one
    <main> alone in <body>; on parsed trees. */
module HtmlPage {
  import opened Options
  import opened Strings
  import opened HtmlChrome

  predicate Is(t: Tree, tag: string) {
    t.kind == Element && t.data == tag
  }

  /** findElement(…, "body"). */
  function FindBody(t: Tree): (r: Option<Tree>)
    ensures r.Some? ==> Is(r.value, "body")
    decreases t, 1
  {
    if Is(t, "body") then Some(t) else FindIn(t.kids)
  }

  function FindIn(ts: seq<Tree>): (r: Option<Tree>)
    ensures r.Some? ==> Is(r.value, "body")
    decreases ts, 0
  {
    if ts == [] then None
    else if FindBody(ts[0]).Some? then FindBody(ts[0]) else FindIn(ts[1..])
  }

  /** collectElements(…, "main"): below these siblings' parent, outermost only. */
  function Mains(ts: seq<Tree>): (r: seq<Tree>)
    ensures forall k | 0 <= k < |r| :: Is(r[k], "main")
  {
    if ts == [] then []
    else (if Is(ts[0], "main") then [ts[0]] else Mains(ts[0].kids)) + Mains(ts[1..])
  }

  /** The document with the body's children replaced. */
  function WithBody(t: Tree, kids: seq<Tree>): Tree
    decreases t, 1
  {
    if Is(t, "body") then t.(kids := kids) else t.(kids := WithBodyIn(t.kids, kids))
  }

  function WithBodyIn(ts: seq<Tree>, kids: seq<Tree>): seq<Tree>
    decreases ts, 0
  {
    if ts == [] then []
    else if FindBody(ts[0]).Some? then [WithBody(ts[0], kids)] + ts[1..]
    else [ts[0]] + WithBodyIn(ts[1..], kids)
  }

  predicate Blanks(s: string) {
    TrimSpace(s) == ""
  }

  /** The page's one <main> with text in it, if there is exactly one. */
  function TheMain(doc: Tree): Option<Tree> {
    match FindBody(doc)
    case None => None
    case Some(body) =>
      var mains := Mains(body.kids);
      if |mains| != 1 || Blanks(TextContent(mains[0])) then None else Some(mains[0])
  }

  function IsolateMain(doc: Tree): Tree {
    match TheMain(doc)
    case None => doc
    case Some(main) => WithBody(doc, [main])
  }

  function StripPage(doc: Tree): Tree {
    var stripped := IsolateMain(Strip(doc, true));
    if Blanks(TextContent(stripped)) then doc else stripped
  }

  // ---------------------------------------------------------------- the body as a place in the document

  lemma {:induction false} BodyOfWithBody(t: Tree, kids: seq<Tree>)
    requires FindBody(t).Some?
    ensures FindBody(WithBody(t, kids)) == Some(FindBody(t).value.(kids := kids))
    decreases t, 1
  {
    if !Is(t, "body") { BodyOfWithBodyIn(t.kids, kids); }
  }

  lemma {:induction false} BodyOfWithBodyIn(ts: seq<Tree>, kids: seq<Tree>)
    requires FindIn(ts).Some?
    ensures FindIn(WithBodyIn(ts, kids)) == Some(FindIn(ts).value.(kids := kids))
    decreases ts, 0
  {
    if FindBody(ts[0]).Some? {
      BodyOfWithBody(ts[0], kids);
    } else {
      BodyOfWithBodyIn(ts[1..], kids);
      assert WithBodyIn(ts, kids)[1..] == WithBodyIn(ts[1..], kids);
    }
  }

  lemma {:induction false} WithBodyAgain(t: Tree, a: seq<Tree>, b: seq<Tree>)
    requires FindBody(t).Some?
    ensures WithBody(WithBody(t, a), b) == WithBody(t, b)
    decreases t, 1
  {
    if !Is(t, "body") { WithBodyInAgain(t.kids, a, b); }
  }

  lemma {:induction false} WithBodyInAgain(ts: seq<Tree>, a: seq<Tree>, b: seq<Tree>)
    requires FindIn(ts).Some?
    ensures WithBodyIn(WithBodyIn(ts, a), b) == WithBodyIn(ts, b)
    decreases ts, 0
  {
    if FindBody(ts[0]).Some? {
      BodyOfWithBody(ts[0], a);
      WithBodyAgain(ts[0], a, b);
      assert WithBodyIn(ts, a)[1..] == ts[1..];
    } else {
      WithBodyInAgain(ts[1..], a, b);
      assert WithBodyIn(ts, a)[1..] == WithBodyIn(ts[1..], a);
    }
  }

  /** In a clean document stripping reaches a new body's children and nothing else. */
  lemma {:induction false} StripWithBody(t: Tree, page: bool, kids: seq<Tree>)
    requires FindBody(t).Some? && Clean(t, page)
    ensures Strip(WithBody(t, kids), page) == WithBody(t, StripAll(kids, true))
    decreases t, 1
  {
    if !Is(t, "body") { StripWithBodyIn(t.kids, Below(t.kind, t.data, page), kids); }
  }

  lemma {:induction false} StripWithBodyIn(ts: seq<Tree>, page: bool, kids: seq<Tree>)
    requires FindIn(ts).Some? && CleanAll(ts, page)
    ensures StripAll(WithBodyIn(ts, kids), page) == WithBodyIn(ts, StripAll(kids, true))
    decreases ts, 0
  {
    if FindBody(ts[0]).Some? {
      StripWithBody(ts[0], page, kids);
      CleanAllIsFixed(ts[1..], page);
      assert WithBodyIn(ts, kids)[1..] == ts[1..];
    } else {
      StripWithBodyIn(ts[1..], page, kids);
      CleanIsFixed(ts[0], page);
      assert WithBodyIn(ts, kids)[1..] == WithBodyIn(ts[1..], kids);
    }
  }

  /** A <main> in a clean document is judged by its attributes alone, so it is no chrome anywhere. */
  lemma {:induction false} MainsStay(ts: seq<Tree>, page: bool, anywhere: bool)
    requires CleanAll(ts, page)
    ensures forall k | 0 <= k < |Mains(ts)| :: !Dropped(Mains(ts)[k], anywhere)
  {
    if ts != [] {
      MainsStay(ts[1..], page, anywhere);
      if !Is(ts[0], "main") { MainsStay(ts[0].kids, Below(ts[0].kind, ts[0].data, page), anywhere); }
    }
  }

  lemma {:induction false} CleanBody(t: Tree, page: bool)
    requires FindBody(t).Some? && Clean(t, page)
    ensures CleanAll(FindBody(t).value.kids, true)
    decreases t, 1
  {
    if !Is(t, "body") { CleanBodyIn(t.kids, Below(t.kind, t.data, page)); }
  }

  lemma {:induction false} CleanBodyIn(ts: seq<Tree>, page: bool)
    requires FindIn(ts).Some? && CleanAll(ts, page)
    ensures CleanAll(FindIn(ts).value.kids, true)
    decreases ts, 0
  {
    if FindBody(ts[0]).Some? { CleanBody(ts[0], page); } else { CleanBodyIn(ts[1..], page); }
  }

  // ---------------------------------------------------------------- text

  /** As the parser builds them: text nodes have no children. */
  predicate Parsed(t: Tree)
    decreases t, 1
  {
    (t.kind == Text ==> t.kids == []) && ParsedAll(t.kids)
  }

  predicate ParsedAll(ts: seq<Tree>)
    decreases ts, 0
  {
    ts == [] || (Parsed(ts[0]) && ParsedAll(ts[1..]))
  }

  lemma {:induction false} StripKeepsParsed(t: Tree, page: bool)
    requires Parsed(t)
    ensures Parsed(Strip(t, page))
    decreases t, 1
  {
    StripAllKeepsParsed(t.kids, Below(t.kind, t.data, page));
  }

  lemma {:induction false} StripAllKeepsParsed(ts: seq<Tree>, page: bool)
    requires ParsedAll(ts)
    ensures ParsedAll(StripAll(ts, page))
    decreases ts, 0
  {
    if ts != [] {
      StripAllKeepsParsed(ts[1..], page);
      StripKeepsParsed(ts[0], page);
      if Dropped(ts[0], page) {
        assert StripAll(ts, page) == StripAll(ts[1..], page);
      } else {
        assert StripAll(ts, page)[1..] == StripAll(ts[1..], page);
      }
    }
  }

  lemma {:induction false} SubsequenceTransitive(a: string, b: string, c: string)
    requires Subsequence(a, b) && Subsequence(b, c)
    ensures Subsequence(a, c)
    decreases |c|
  {
    if a != "" {
      if b[0] == c[0] {
        if a[0] == b[0] {
          SubsequenceTransitive(a[1..], b[1..], c[1..]);
        } else {
          SubsequenceTransitive(a, b[1..], c[1..]);
          SkipFirst(a, c);
        }
      } else {
        SubsequenceTransitive(a, b, c[1..]);
        SkipFirst(a, c);
      }
    }
  }

  lemma Beside(a: string, left: string, b: string, right: string)
    requires Subsequence(a, b)
    ensures Subsequence(a, left + b + right)
  {
    SubsequenceAppend("", left, a, b);
    SubsequenceAppend("" + a, left + b, "", right);
    assert "" + a + "" == a;
  }

  /** Every main's text stands, in order, in the text around it. */
  lemma {:induction false} MainText(ts: seq<Tree>, k: nat)
    requires ParsedAll(ts) && k < |Mains(ts)|
    ensures Subsequence(TextContent(Mains(ts)[k]), TextAll(ts))
    decreases ts
  {
    var here := if Is(ts[0], "main") then [ts[0]] else Mains(ts[0].kids);
    var a, b := TextContent(ts[0]), TextAll(ts[1..]);
    if k >= |here| {
      MainText(ts[1..], k - |here|);
      Beside(TextContent(Mains(ts)[k]), a, b, "");
      assert a + b + "" == a + b;
    } else {
      if Is(ts[0], "main") {
        SubsequenceSelf(a);
      } else {
        MainText(ts[0].kids, k);
      }
      Beside(TextContent(Mains(ts)[k]), "", a, b);
      assert "" + a + b == a + b;
    }
  }

  /** New children's text stands in the document's; and if it came from the body's, nothing was added. */
  lemma {:induction false} BodyText(t: Tree, kids: seq<Tree>)
    requires FindBody(t).Some? && Parsed(t)
    ensures Subsequence(TextAll(kids), TextContent(WithBody(t, kids)))
    ensures Subsequence(TextAll(kids), TextAll(FindBody(t).value.kids)) ==>
              Subsequence(TextContent(WithBody(t, kids)), TextContent(t))
    decreases t, 1
  {
    if Is(t, "body") {
      SubsequenceSelf(TextAll(kids));
    } else {
      BodyTextIn(t.kids, kids);
    }
  }

  lemma {:induction false} BodyTextIn(ts: seq<Tree>, kids: seq<Tree>)
    requires FindIn(ts).Some? && ParsedAll(ts)
    ensures Subsequence(TextAll(kids), TextAll(WithBodyIn(ts, kids)))
    ensures Subsequence(TextAll(kids), TextAll(FindIn(ts).value.kids)) ==>
              Subsequence(TextAll(WithBodyIn(ts, kids)), TextAll(ts))
    decreases ts, 0
  {
    var us := WithBodyIn(ts, kids);
    var a, b := TextContent(ts[0]), TextAll(ts[1..]);
    if FindBody(ts[0]).Some? {
      BodyText(ts[0], kids);
      assert us[1..] == ts[1..];
      var a' := TextContent(WithBody(ts[0], kids));
      Beside(TextAll(kids), "", a', b);
      assert "" + a' + b == a' + b;
      SubsequenceSelf(b);
      if Subsequence(a', a) { SubsequenceAppend(a', a, b, b); }
    } else {
      BodyTextIn(ts[1..], kids);
      assert us[1..] == WithBodyIn(ts[1..], kids);
      var b' := TextAll(us[1..]);
      Beside(TextAll(kids), a, b', "");
      assert a + b' + "" == a + b';
      SubsequenceSelf(a);
      if Subsequence(b', b) { SubsequenceAppend(a, a, b', b); }
    }
  }

  lemma {:induction false} ParsedBody(t: Tree)
    requires FindBody(t).Some? && Parsed(t)
    ensures ParsedAll(FindBody(t).value.kids)
    decreases t, 1
  {
    if !Is(t, "body") { ParsedBodyIn(t.kids); }
  }

  lemma {:induction false} ParsedBodyIn(ts: seq<Tree>)
    requires FindIn(ts).Some? && ParsedAll(ts)
    ensures ParsedAll(FindIn(ts).value.kids)
    decreases ts, 0
  {
    if FindBody(ts[0]).Some? { ParsedBody(ts[0]); } else { ParsedBodyIn(ts[1..]); }
  }

  lemma {:induction false} BlankPart(a: string, b: string)
    requires Subsequence(a, b) && Blanks(b)
    ensures Blanks(a)
  {
    SpaceExactly(a);
    SpaceExactly(b);
    AllOfPart(a, b);
  }

  lemma {:induction false} AllOfPart(a: string, b: string)
    requires Subsequence(a, b) && forall k | 0 <= k < |b| :: Blank(b[k])
    ensures forall k | 0 <= k < |a| :: Blank(a[k])
    decreases |b|
  {
    if a != "" {
      if a[0] == b[0] {
        AllOfPart(a[1..], b[1..]);
        forall k | 0 <= k < |a| ensures Blank(a[k]) { if k > 0 { assert a[k] == a[1..][k-1]; } }
      } else {
        AllOfPart(a, b[1..]);
      }
    }
  }

  // ---------------------------------------------------------------- the whole page

  /** The result's text is an in-order subsequence of the page's; a page with text never loses all of it. */
  lemma PageKeepsText(doc: Tree)
    requires Parsed(doc)
    ensures Subsequence(TextContent(StripPage(doc)), TextContent(doc))
    ensures !Blanks(TextContent(doc)) ==> !Blanks(TextContent(StripPage(doc)))
  {
    var clean := Strip(doc, true);
    SubsequenceSelf(TextContent(doc));
    StripKeepsTextOrder(doc, true);
    StripKeepsParsed(doc, true);
    if TheMain(clean).Some? {
      var body, main := FindBody(clean).value, TheMain(clean).value;
      ParsedBody(clean);
      MainText(body.kids, 0);
      assert TextAll([main]) == TextContent(main) by { assert TextContent(main) + "" == TextContent(main); }
      BodyText(clean, [main]);
      SubsequenceTransitive(TextContent(WithBody(clean, [main])), TextContent(clean), TextContent(doc));
    }
  }

  /** An isolated main: it is all there is in the body, and stripping the result again can only reach into it. */
  lemma IsolatedAgain(clean: Tree)
    requires Parsed(clean) && Clean(clean, true) && TheMain(clean).Some?
    ensures var main := TheMain(clean).value;
            && IsolateMain(clean) == WithBody(clean, [main])
            && !Blanks(TextContent(IsolateMain(clean)))
            && FindBody(WithBody(clean, [main])) == Some(FindBody(clean).value.(kids := [main]))
            && IsolateMain(Strip(WithBody(clean, [main]), true)) == WithBody(clean, [Strip(main, true)])
  {
    var body, main := FindBody(clean).value, TheMain(clean).value;
    var s := WithBody(clean, [main]);
    CleanBody(clean, true);
    MainsStay(body.kids, true, true);
    BodyOfWithBody(clean, [main]);
    BodyText(clean, [main]);
    assert TextAll([main]) == TextContent(main) by { assert TextContent(main) + "" == TextContent(main); }
    if Blanks(TextContent(s)) { BlankPart(TextContent(main), TextContent(s)); }
    StripWithBody(clean, true, [main]);
    assert StripAll([main], true) == [Strip(main, true)];
    var m := Strip(main, true);
    var again := WithBody(clean, [m]);
    BodyOfWithBody(clean, [m]);
    WithBodyAgain(clean, [m], [m]);
    assert Mains([m]) == [m];
  }

  // ---------------------------------------------------------------- which main

  /** The way down to an outermost main: the place of each node among its siblings. */
  predicate Outermost(ts: seq<Tree>, path: seq<nat>)
    decreases |path|
  {
    && path != [] && path[0] < |ts|
    && (if |path| == 1 then Is(ts[path[0]], "main")
        else !Is(ts[path[0]], "main") && Outermost(ts[path[0]].kids, path[1..]))
  }

  function NodeAt(ts: seq<Tree>, path: seq<nat>): Tree
    requires Outermost(ts, path)
    decreases |path|
  {
    if |path| == 1 then ts[path[0]] else NodeAt(ts[path[0]].kids, path[1..])
  }

  function Later(path: seq<nat>): seq<nat>
    requires path != []
  {
    [path[0] + 1] + path[1..]
  }

  function Rank(ts: seq<Tree>, path: seq<nat>): nat
    requires Outermost(ts, path)
    decreases ts
  {
    if path[0] == 0 then (if |path| == 1 then 0 else Rank(ts[0].kids, path[1..]))
    else
      assert Outermost(ts[1..], [path[0] - 1] + path[1..]) by { assert ([path[0] - 1] + path[1..])[1..] == path[1..]; }
      (if Is(ts[0], "main") then 1 else |Mains(ts[0].kids)|) + Rank(ts[1..], [path[0] - 1] + path[1..])
  }

  lemma {:induction false} RankIsPlace(ts: seq<Tree>, path: seq<nat>)
    requires Outermost(ts, path)
    ensures Rank(ts, path) < |Mains(ts)| && Mains(ts)[Rank(ts, path)] == NodeAt(ts, path)
    ensures path[0] == 0 <==> Rank(ts, path) < if Is(ts[0], "main") then 1 else |Mains(ts[0].kids)|
    decreases ts
  {
    if path[0] == 0 {
      if |path| > 1 { RankIsPlace(ts[0].kids, path[1..]); }
    } else {
      var p := [path[0] - 1] + path[1..];
      assert p[1..] == path[1..] && ts[1..][p[0]] == ts[path[0]];
      RankIsPlace(ts[1..], p);
    }
  }

  lemma {:induction false} RankTellsApart(ts: seq<Tree>, p: seq<nat>, q: seq<nat>)
    requires Outermost(ts, p) && Outermost(ts, q) && Rank(ts, p) == Rank(ts, q)
    ensures p == q
    decreases ts
  {
    RankIsPlace(ts, p);
    RankIsPlace(ts, q);
    if p[0] > 0 {
      var p', q' := [p[0] - 1] + p[1..], [q[0] - 1] + q[1..];
      assert p'[1..] == p[1..] && q'[1..] == q[1..];
      RankTellsApart(ts[1..], p', q');
      assert p'[0] == q'[0] && p == [p[0]] + p[1..] && q == [q[0]] + q[1..];
    } else if |p| > 1 && |q| > 1 {
      RankTellsApart(ts[0].kids, p[1..], q[1..]);
      assert p == [p[0]] + p[1..] && q == [q[0]] + q[1..];
    }
  }

  ghost predicate OnlyMain(ts: seq<Tree>, path: seq<nat>) {
    Outermost(ts, path) && forall q | Outermost(ts, q) :: q == path
  }

  lemma OneMain(ts: seq<Tree>)
    ensures |Mains(ts)| == 1 <==> exists path :: OnlyMain(ts, path)
    ensures forall path | OnlyMain(ts, path) :: Mains(ts) == [NodeAt(ts, path)]
  {
    forall path | Outermost(ts, path) ensures Rank(ts, path) < |Mains(ts)|
      ensures Mains(ts)[Rank(ts, path)] == NodeAt(ts, path)
    { RankIsPlace(ts, path); }
    if |Mains(ts)| == 1 {
      var path := MainRanked(ts, 0);
      forall q | Outermost(ts, q) ensures q == path { RankTellsApart(ts, path, q); }
      assert OnlyMain(ts, path);
    }
    forall path | OnlyMain(ts, path) ensures |Mains(ts)| == 1 { JustOne(ts, path); }
  }

  lemma JustOne(ts: seq<Tree>, path: seq<nat>)
    requires OnlyMain(ts, path)
    ensures |Mains(ts)| == 1
  {
    RankIsPlace(ts, path);
    if |Mains(ts)| > 1 {
      TwoMains(ts, path);
    }
  }

  lemma TwoMains(ts: seq<Tree>, path: seq<nat>)
    requires |Mains(ts)| > 1 && Outermost(ts, path)
    ensures exists q :: Outermost(ts, q) && q != path
  {
    var k := if Rank(ts, path) == 0 then 1 else 0;
    var q := MainRanked(ts, k);
  }

  lemma {:induction false} MainRanked(ts: seq<Tree>, k: nat) returns (path: seq<nat>)
    requires k < |Mains(ts)|
    ensures Outermost(ts, path) && Rank(ts, path) == k
    decreases ts
  {
    var here := if Is(ts[0], "main") then [ts[0]] else Mains(ts[0].kids);
    if k >= |here| {
      var p := MainRanked(ts[1..], k - |here|);
      path := Later(p);
      assert path[1..] == p[1..] && ts[path[0]] == ts[1..][p[0]] && [path[0] - 1] + path[1..] == p;
    } else if Is(ts[0], "main") {
      path := [0];
    } else {
      var p := MainRanked(ts[0].kids, k);
      path := [0] + p;
      assert path[1..] == p;
    }
  }

  /** `main` is the only outermost main below these siblings' parent. */
  ghost predicate IsOnlyMain(ts: seq<Tree>, main: Tree) {
    exists path :: OnlyMain(ts, path) && NodeAt(ts, path) == main
  }

  lemma OnlyMainExactly(ts: seq<Tree>, main: Tree)
    ensures IsOnlyMain(ts, main) <==> Mains(ts) == [main]
  {
    OneMain(ts);
    if Mains(ts) == [main] {
      var path :| OnlyMain(ts, path);
      assert [NodeAt(ts, path)][0] == [main][0];
    }
  }

  lemma TheMainOf(doc: Tree, main: Tree)
    ensures TheMain(doc) == Some(main) <==>
            FindBody(doc).Some? && Mains(FindBody(doc).value.kids) == [main] && !Blanks(TextContent(main))
  {
    if FindBody(doc).Some? {
      var mains := Mains(FindBody(doc).value.kids);
      assert mains == [main] <==> |mains| == 1 && mains[0] == main;
    }
  }

  /** The main that is lifted out: the only outermost one in the body, if there is text in it. */
  lemma MainExactly(doc: Tree, main: Tree)
    ensures TheMain(doc) == Some(main) <==>
            && FindBody(doc).Some? && IsOnlyMain(FindBody(doc).value.kids, main)
            && exists k :: 0 <= k < |TextContent(main)| && !Blank(TextContent(main)[k])
  {
    TheMainOf(doc, main);
    SpaceExactly(TextContent(main));
    if FindBody(doc).Some? { OnlyMainExactly(FindBody(doc).value.kids, main); }
  }

  /** The whole: with such a main left after stripping, it alone in the body; else the stripped page; but the
      page as it was when nothing but blanks would be left. */
  lemma PageExactly(doc: Tree)
    requires Parsed(doc)
    ensures var clean := Strip(doc, true);
            StripPage(doc) == match TheMain(clean)
                              case Some(main) => WithBody(clean, [main])
                              case None => if Blanks(TextContent(clean)) then doc else clean
  {
    StripIsClean(doc, true);
    StripKeepsParsed(doc, true);
    if TheMain(Strip(doc, true)).Some? { IsolatedAgain(Strip(doc, true)); }
  }

  /** What a second run of the whole does: it changes nothing exactly when the first isolated no main,
      or the main holds no chrome as a child of the body, or nothing but blanks would be left. */
  lemma PageTwice(doc: Tree)
    requires Parsed(doc)
    ensures var clean := Strip(doc, true);
            StripPage(StripPage(doc)) == StripPage(doc) <==>
            || TheMain(clean).None?
            || Clean(TheMain(clean).value, true)
            || Blanks(TextContent(WithBody(clean, [Strip(TheMain(clean).value, true)])))
  {
    var clean := Strip(doc, true);
    StripIsClean(doc, true);
    StripKeepsParsed(doc, true);
    if TheMain(clean).None? {
      StripTwice(doc, true);
    } else {
      var main := TheMain(clean).value;
      IsolatedAgain(clean);
      CleanIsFixed(main, true);
      BodyOfWithBody(clean, [main]);
      BodyOfWithBody(clean, [Strip(main, true)]);
      assert WithBody(clean, [main]) == WithBody(clean, [Strip(main, true)]) ==> [main][0] == [Strip(main, true)][0];
    }
  }

  function El(tag: string, kids: seq<Tree>): Tree {
    Tree(Element, tag, [], kids)
  }

  function Words(s: string): Tree {
    Tree(Text, s, [], [])
  }

  function InBody(ts: seq<Tree>): Tree {
    Tree(Other, "", [], [El("body", ts)])
  }

  lemma Alone(t: Tree, page: bool)
    ensures CleanAll([t], page) == (!Dropped(t, page) && Clean(t, page))
    ensures ParsedAll([t]) == Parsed(t)
    ensures TextAll([t]) == TextContent(t)
    ensures Mains([t]) == if Is(t, "main") then [t] else Mains(t.kids)
    ensures FindIn([t]) == FindBody(t)
    ensures forall kids :: FindBody(t).Some? ==> WithBodyIn([t], kids) == [WithBody(t, kids)]
  {
    assert TextContent(t) + "" == TextContent(t);
    assert Mains([t]) == (if Is(t, "main") then [t] else Mains(t.kids)) + [];
  }

  lemma BodyIsThere(ts: seq<Tree>, kids: seq<Tree>)
    ensures FindBody(InBody(ts)) == Some(El("body", ts)) && WithBody(InBody(ts), kids) == InBody(kids)
    ensures TextContent(InBody(ts)) == TextAll(ts) && Parsed(InBody(ts)) == ParsedAll(ts)
    ensures Clean(InBody(ts), true) == CleanAll(ts, true)
  {
    Alone(El("body", ts), true);
  }

  lemma MainInArticle(main: Tree, m: Tree)
    requires Is(main, "main") && main.attrs == [] && Parsed(main) && Clean(main, false)
    ensures var doc := InBody([El("article", [main])]);
            && Parsed(doc) && Clean(doc, true) && FindBody(doc).Some?
            && Mains(FindBody(doc).value.kids) == [main]
            && TextContent(WithBody(doc, [m])) == TextContent(m)
  {
    var article := El("article", [main]);
    Alone(main, false);
    Alone(article, true);
    Alone(m, true);
    BodyIsThere([article], [m]);
    BodyIsThere([m], []);
  }

  /** A main inside an article keeps its headers the first time and loses them the second. */
  lemma HeadersGoTheSecondTime(main: Tree)
    requires Is(main, "main") && main.attrs == [] && Parsed(main) && Clean(main, false) && !Clean(main, true)
    requires !Blanks(TextContent(main)) && !Blanks(TextContent(Strip(main, true)))
    ensures var doc := InBody([El("article", [main])]);
            Parsed(doc) && StripPage(StripPage(doc)) != StripPage(doc)
  {
    var doc := InBody([El("article", [main])]);
    MainInArticle(main, Strip(main, true));
    CleanIsFixed(doc, true);
    PageTwice(doc);
  }

  lemma PageTwiceCanDiffer(main: Tree)
    requires main == El("main", [El("header", [Words("T")]), Words("x")])
    ensures var doc := InBody([El("article", [main])]);
            StripPage(StripPage(doc)) != StripPage(doc)
  {
    var words := Words("x");
    HeaderAndWords(main, words, Words("T"));
    HeadersGoTheSecondTime(main);
  }

  lemma HeaderAndWords(main: Tree, words: Tree, title: Tree)
    requires main == El("main", [El("header", [title]), words])
    requires title == Words("T") && words == Words("x")
    ensures Parsed(main) && Clean(main, false) && !Clean(main, true)
    ensures !Blanks(TextContent(main)) && !Blanks(TextContent(Strip(main, true)))
  {
    var inner := main.kids;
    assert inner[1..] == [words];
    Alone(title, false);
    Alone(words, false);
    Alone(words, true);
    assert StripAll(inner, true) == [] + StripAll([words], true);
    assert StripAll([words], true) == [words];
    var all := TextContent(inner[0]) + TextAll([words]);
    assert TextAll(inner) == all;
    assert all[|all|-1] == 'x' && !Blank('x');
    SpaceExactly(all);
    SpaceExactly(words.data);
    assert words.data[0] == 'x';
    assert Strip(main, true).kids == [words];
    assert TextContent(Strip(main, true)) == words.data;
  }
}
