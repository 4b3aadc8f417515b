/** Stripping page chrome from a parsed HTML tree (internal/brain/api/kb_html.go). */
module HtmlChrome {
  import opened Strings

  datatype Kind = Element | Text | Other
  datatype Attr = Attr(key: string, val: string)

  /** A parsed page as a value. */
  datatype Tree = Tree(kind: Kind, data: string, attrs: seq<Attr>, kids: seq<Tree>)

  const CHROME_TAGS := {"script", "style", "noscript", "template", "iframe", "nav", "aside"}
  const CHROME_ROLES := {"navigation", "banner", "contentinfo", "complementary"}
  const SECTIONING_TAGS := {"article", "section", "aside", "body"}

  function Lower(s: string): string {
    seq(|s|, i requires 0 <= i < |s| => if 'A' <= s[i] <= 'Z' then s[i] - 'A' + 'a' else s[i])
  }

  predicate ChromeAttr(a: Attr) {
    (a.key == "role" && Lower(TrimSpace(a.val)) in CHROME_ROLES)
    || (a.key == "aria-hidden" && Lower(TrimSpace(a.val)) == "true")
  }

  predicate HeaderLike(data: string) {
    data == "header" || data == "footer"
  }

  /** Whether an element is chrome; `page` says its nearest sectioning ancestor is the page itself. */
  predicate Chrome(data: string, attrs: seq<Attr>, page: bool) {
    if data in CHROME_TAGS then true
    else if HeaderLike(data) then page
    else exists i | 0 <= i < |attrs| :: ChromeAttr(attrs[i])
  }

  /** The page level a node gives its children. */
  function Below(kind: Kind, data: string, page: bool): bool {
    if kind == Element && data in SECTIONING_TAGS then data == "body" else page
  }

  predicate Dropped(t: Tree, page: bool) {
    t.kind == Element && Chrome(t.data, t.attrs, page)
  }

  /** The tree without its chrome subtrees, each element judged where it stands in the original. */
  function Strip(t: Tree, page: bool): Tree {
    t.(kids := StripAll(t.kids, Below(t.kind, t.data, page)))
  }

  function StripAll(ts: seq<Tree>, page: bool): seq<Tree> {
    if ts == [] then []
    else (if Dropped(ts[0], page) then [] else [Strip(ts[0], page)]) + StripAll(ts[1..], page)
  }

  // ---------------------------------------------------------------- what counts as chrome

  /** The word `w`, in small letters, with blanks around it and in any mixture of capitals. */
  ghost predicate Spells(val: string, w: string) {
    exists a, t, b :: Trimmed(val, Blank, a, t, b) && InAnyCase(t, w)
  }

  predicate InAnyCase(t: string, w: string) {
    && |t| == |w|
    && forall k | 0 <= k < |t| :: if 'A' <= t[k] <= 'Z' then t[k] as int + 32 == w[k] as int else t[k] == w[k]
  }

  lemma SpelledExactly(val: string, w: string)
    ensures Spells(val, w) <==> Lower(TrimSpace(val)) == w
  {
    var a, b := TrimParts(val, Blank);
    LowerExactly(TrimSpace(val), w);
    forall a', t', b' | Trimmed(val, Blank, a', t', b') ensures t' == TrimSpace(val) {
      TrimmedIsTrim(val, Blank, a', t', b');
    }
  }

  lemma LowerExactly(t: string, w: string)
    ensures InAnyCase(t, w) <==> Lower(t) == w
  {
    if InAnyCase(t, w) {
      forall k | 0 <= k < |t| ensures Lower(t)[k] == w[k] {}
    }
    if Lower(t) == w {
      forall k | 0 <= k < |t| ensures if 'A' <= t[k] <= 'Z' then t[k] as int + 32 == w[k] as int else t[k] == w[k] {
        assert Lower(t)[k] == w[k];
      }
    }
  }

  /** An attribute that takes its element for page furniture, or hides it. */
  ghost predicate Furniture(a: Attr) {
    || (a.key == "role" && (Spells(a.val, "navigation") || Spells(a.val, "banner") || Spells(a.val, "contentinfo")
                            || Spells(a.val, "complementary")))
    || (a.key == "aria-hidden" && Spells(a.val, "true"))
  }

  lemma FurnitureExactly(a: Attr)
    ensures ChromeAttr(a) <==> Furniture(a)
  {
    forall w ensures Spells(a.val, w) <==> Lower(TrimSpace(a.val)) == w { SpelledExactly(a.val, w); }
  }

  /** Exactly what goes: seven kinds of element, headers and footers of the page itself, and any other element
      with such an attribute. */
  lemma ChromeExactly(data: string, attrs: seq<Attr>, page: bool)
    ensures Chrome(data, attrs, page) <==>
            || data in {"script", "style", "noscript", "template", "iframe", "nav", "aside"}
            || (data in {"header", "footer"} && page)
            || (data !in {"header", "footer"} && exists a | a in attrs :: Furniture(a))
  {
    FurnitureAmong(attrs);
  }

  lemma FurnitureAmong(attrs: seq<Attr>)
    ensures (exists i | 0 <= i < |attrs| :: ChromeAttr(attrs[i])) <==> exists a | a in attrs :: Furniture(a)
  {
    forall a ensures ChromeAttr(a) <==> Furniture(a) { FurnitureExactly(a); }
    if i :| 0 <= i < |attrs| && ChromeAttr(attrs[i]) { assert attrs[i] in attrs && Furniture(attrs[i]); }
    if a :| a in attrs && Furniture(a) { var i :| 0 <= i < |attrs| && attrs[i] == a; }
  }

  /** Below an article, section or aside a header is content again; below the body it is the page's. */
  lemma BelowExactly(t: Tree, page: bool)
    ensures Below(t.kind, t.data, page) <==>
            if t.kind == Element && t.data in {"article", "section", "aside"} then false
            else (t.kind == Element && t.data == "body") || page
  {
  }

  // ---------------------------------------------------------------- what stripping means

  /** A node as listed in document order. */
  datatype Entry = Entry(depth: nat, kind: Kind, data: string, attrs: seq<Attr>)

  datatype Mark = Mark(entry: Entry, alive: bool)

  /** Document order. */
  function Listing(t: Tree, depth: nat): seq<Entry>
    decreases t, 1
  {
    [Entry(depth, t.kind, t.data, t.attrs)] + ListingAll(t.kids, depth + 1)
  }

  function ListingAll(ts: seq<Tree>, depth: nat): seq<Entry>
    decreases ts, 0
  {
    if ts == [] then [] else Listing(ts[0], depth) + ListingAll(ts[1..], depth)
  }

  /** Document order, each node marked with whether neither it nor any ancestor below the root is
      chrome, judged on the original tree alone. */
  function Marked(t: Tree, depth: nat, page: bool, alive: bool): seq<Mark>
    decreases t, 1
  {
    [Mark(Entry(depth, t.kind, t.data, t.attrs), alive)]
    + MarkedAll(t.kids, depth + 1, Below(t.kind, t.data, page), alive)
  }

  function MarkedAll(ts: seq<Tree>, depth: nat, page: bool, alive: bool): seq<Mark>
    decreases ts, 0
  {
    if ts == [] then []
    else Marked(ts[0], depth, page, alive && !Dropped(ts[0], page)) + MarkedAll(ts[1..], depth, page, alive)
  }

  function Survivors(ms: seq<Mark>): seq<Entry> {
    if ms == [] then [] else (if ms[0].alive then [ms[0].entry] else []) + Survivors(ms[1..])
  }

  lemma {:induction false} SurvivorsAppend(a: seq<Mark>, b: seq<Mark>)
    ensures Survivors(a + b) == Survivors(a) + Survivors(b)
  {
    if a == [] {
      assert a + b == b;
    } else {
      var first := if a[0].alive then [a[0].entry] else [];
      SurvivorsAppend(a[1..], b);
      assert (a + b)[0] == a[0] && (a + b)[1..] == a[1..] + b;
      assert Survivors(a + b) == first + (Survivors(a[1..]) + Survivors(b));
      assert first + (Survivors(a[1..]) + Survivors(b)) == (first + Survivors(a[1..])) + Survivors(b);
    }
  }

  lemma {:induction false} DeadLeaveNothing(ts: seq<Tree>, depth: nat, page: bool)
    ensures Survivors(MarkedAll(ts, depth, page, false)) == []
    decreases ts
  {
    if ts != [] {
      var t := ts[0];
      DeadLeaveNothing(t.kids, depth + 1, Below(t.kind, t.data, page));
      DeadLeaveNothing(ts[1..], depth, page);
      var inner := MarkedAll(t.kids, depth + 1, Below(t.kind, t.data, page), false);
      SurvivorsAppend([Mark(Entry(depth, t.kind, t.data, t.attrs), false)], inner);
      SurvivorsAppend(Marked(t, depth, page, false), MarkedAll(ts[1..], depth, page, false));
    }
  }

  /** Stripping keeps, in document order and at their depth, exactly the nodes with no chrome element
      among themselves and their ancestors. */
  lemma {:induction false} StripKeepsExactlyTheLiving(t: Tree, depth: nat, page: bool)
    ensures Listing(Strip(t, page), depth) == Survivors(Marked(t, depth, page, true))
    decreases t, 1
  {
    StripAllKeepsExactlyTheLiving(t.kids, depth + 1, Below(t.kind, t.data, page));
    SurvivorsAppend([Mark(Entry(depth, t.kind, t.data, t.attrs), true)],
                    MarkedAll(t.kids, depth + 1, Below(t.kind, t.data, page), true));
  }

  lemma {:induction false} StripAllKeepsExactlyTheLiving(ts: seq<Tree>, depth: nat, page: bool)
    ensures ListingAll(StripAll(ts, page), depth) == Survivors(MarkedAll(ts, depth, page, true))
    decreases ts, 0
  {
    if ts != [] {
      var t, rest := ts[0], ts[1..];
      StripAllKeepsExactlyTheLiving(rest, depth, page);
      SurvivorsAppend(Marked(t, depth, page, !Dropped(t, page)), MarkedAll(rest, depth, page, true));
      if Dropped(t, page) {
        SurvivorsAppend([Mark(Entry(depth, t.kind, t.data, t.attrs), false)],
                        MarkedAll(t.kids, depth + 1, Below(t.kind, t.data, page), false));
        DeadLeaveNothing(t.kids, depth + 1, Below(t.kind, t.data, page));
        assert StripAll(ts, page) == StripAll(rest, page);
      } else {
        StripKeepsExactlyTheLiving(t, depth, page);
        assert StripAll(ts, page) == [Strip(t, page)] + StripAll(rest, page);
      }
    }
  }

  /** No chrome element is left anywhere below the root. */
  predicate Clean(t: Tree, page: bool)
    decreases t, 1
  {
    CleanAll(t.kids, Below(t.kind, t.data, page))
  }

  predicate CleanAll(ts: seq<Tree>, page: bool)
    decreases ts, 0
  {
    ts == [] || (!Dropped(ts[0], page) && Clean(ts[0], page) && CleanAll(ts[1..], page))
  }

  lemma {:induction false} StripIsClean(t: Tree, page: bool)
    ensures Clean(Strip(t, page), page)
    decreases t, 1
  {
    StripAllIsClean(t.kids, Below(t.kind, t.data, page));
  }

  lemma {:induction false} StripAllIsClean(ts: seq<Tree>, page: bool)
    ensures CleanAll(StripAll(ts, page), page)
    decreases ts, 0
  {
    if ts != [] {
      StripAllIsClean(ts[1..], page);
      StripIsClean(ts[0], page);
      if !Dropped(ts[0], page) {
        assert StripAll(ts, page)[1..] == StripAll(ts[1..], page);
      } else {
        assert StripAll(ts, page) == StripAll(ts[1..], page);
      }
    }
  }

  /** After stripping, below the root: no script, style, noscript, template, iframe, nav or aside element; and no
      element but a header or footer that is marked as navigation, banner, contentinfo or complementary, or
      as hidden. */
  lemma NoneIsLeft(t: Tree, page: bool, depth: nat, k: nat)
    requires 0 < k < |Listing(Strip(t, page), depth)|
    ensures var e := Listing(Strip(t, page), depth)[k];
            e.kind == Element ==>
              && e.data !in {"script", "style", "noscript", "template", "iframe", "nav", "aside"}
              && (e.data !in {"header", "footer"} ==> forall a | a in e.attrs :: !Furniture(a))
  {
    var all := Listing(Strip(t, page), depth);
    StripAllIsClean(t.kids, Below(t.kind, t.data, page));
    CleanIsListed(Strip(t, page).kids, depth + 1, Below(t.kind, t.data, page));
    assert all[k] == ListingAll(Strip(t, page).kids, depth + 1)[k-1];
    assert Tidy(all[k]);
    ChromeExactly(all[k].data, all[k].attrs, false);
  }

  /** No chrome wherever it stands. */
  predicate Tidy(e: Entry) {
    e.kind == Element ==> !Chrome(e.data, e.attrs, false)
  }

  lemma {:induction false} CleanIsListed(ts: seq<Tree>, depth: nat, page: bool)
    requires CleanAll(ts, page)
    ensures forall e | e in ListingAll(ts, depth) :: Tidy(e)
    decreases ts
  {
    if ts != [] {
      var t := ts[0];
      CleanIsListed(t.kids, depth + 1, Below(t.kind, t.data, page));
      CleanIsListed(ts[1..], depth, page);
      assert Tidy(Entry(depth, t.kind, t.data, t.attrs));
      assert ListingAll(ts, depth) == Listing(t, depth) + ListingAll(ts[1..], depth);
    }
  }

  /** A tree is left alone exactly when it holds no chrome. */
  lemma {:induction false} CleanIsFixed(t: Tree, page: bool)
    ensures Clean(t, page) <==> Strip(t, page) == t
    decreases t, 1
  {
    CleanAllIsFixed(t.kids, Below(t.kind, t.data, page));
  }

  lemma {:induction false} CleanAllIsFixed(ts: seq<Tree>, page: bool)
    ensures |StripAll(ts, page)| <= |ts|
    ensures CleanAll(ts, page) <==> StripAll(ts, page) == ts
    decreases ts, 0
  {
    if ts != [] {
      CleanAllIsFixed(ts[1..], page);
      CleanIsFixed(ts[0], page);
      if !Dropped(ts[0], page) {
        assert StripAll(ts, page) == [Strip(ts[0], page)] + StripAll(ts[1..], page);
        assert ts == [ts[0]] + ts[1..];
        if StripAll(ts, page) == ts {
          assert StripAll(ts, page)[0] == ts[0] && StripAll(ts, page)[1..] == ts[1..];
        }
      }
    }
  }

  /** A second walk changes nothing. */
  lemma StripTwice(t: Tree, page: bool)
    ensures Strip(Strip(t, page), page) == Strip(t, page)
  {
    StripIsClean(t, page);
    CleanIsFixed(Strip(t, page), page);
  }

  // ---------------------------------------------------------------- text

  function TextContent(t: Tree): string
    decreases t, 1
  {
    if t.kind == Text then t.data else TextAll(t.kids)
  }

  function TextAll(ts: seq<Tree>): string
    decreases ts, 0
  {
    if ts == [] then "" else TextContent(ts[0]) + TextAll(ts[1..])
  }

  /** `a` is what is left of `b` after deleting some characters. */
  predicate Subsequence(a: string, b: string)
    decreases |b|
  {
    if a == "" then true
    else if b == "" then false
    else if a[0] == b[0] then Subsequence(a[1..], b[1..])
    else Subsequence(a, b[1..])
  }

  lemma {:induction false} SubsequenceAppend(a: string, b: string, c: string, d: string)
    requires Subsequence(a, b) && Subsequence(c, d)
    ensures Subsequence(a + c, b + d)
    decreases |b|
  {
    if b == "" {
      assert a + c == c && b + d == d;
    } else {
      assert (b + d)[1..] == b[1..] + d;
      if a != "" && a[0] == b[0] {
        assert (a + c)[1..] == a[1..] + c;
        SubsequenceAppend(a[1..], b[1..], c, d);
      } else {
        SubsequenceAppend(a, b[1..], c, d);
        SkipFirst(a + c, b + d);
      }
    }
  }

  lemma {:induction false} SkipFirst(a: string, b: string)
    requires b != "" && Subsequence(a, b[1..])
    ensures Subsequence(a, b)
    decreases |b|, 0
  {
    if a != "" && a[0] == b[0] {
      DropFirst(a, b[1..]);
    }
  }

  lemma {:induction false} DropFirst(a: string, b: string)
    requires a != "" && Subsequence(a, b)
    ensures Subsequence(a[1..], b)
    decreases |b|, 1
  {
    if a[0] == b[0] {
      SkipFirst(a[1..], b);
    } else {
      DropFirst(a, b[1..]);
      SkipFirst(a[1..], b);
    }
  }

  /** The surviving text is an in-order subsequence of the original text. */
  lemma {:induction false} StripKeepsTextOrder(t: Tree, page: bool)
    ensures Subsequence(TextContent(Strip(t, page)), TextContent(t))
    decreases t, 1
  {
    if t.kind == Text {
      SubsequenceSelf(t.data);
    } else {
      StripAllKeepsTextOrder(t.kids, Below(t.kind, t.data, page));
    }
  }

  lemma {:induction false} StripAllKeepsTextOrder(ts: seq<Tree>, page: bool)
    ensures Subsequence(TextAll(StripAll(ts, page)), TextAll(ts))
    decreases ts, 0
  {
    if ts != [] {
      var rest := StripAll(ts[1..], page);
      StripAllKeepsTextOrder(ts[1..], page);
      if Dropped(ts[0], page) {
        assert StripAll(ts, page) == rest;
        SubsequenceAppend("", TextContent(ts[0]), TextAll(rest), TextAll(ts[1..]));
        assert "" + TextAll(rest) == TextAll(rest);
      } else {
        StripKeepsTextOrder(ts[0], page);
        assert StripAll(ts, page) == [Strip(ts[0], page)] + rest;
        SubsequenceAppend(TextContent(Strip(ts[0], page)), TextContent(ts[0]), TextAll(rest), TextAll(ts[1..]));
      }
    }
  }

  lemma {:induction false} SubsequenceSelf(a: string)
    ensures Subsequence(a, a)
  {
    if a != "" {
      SubsequenceSelf(a[1..]);
    }
  }
}
