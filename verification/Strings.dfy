/** Splitting text at a separator, and joining it again. */
module Strings {
  /** strings.Split with a separator of one char. */
  function Split(s: string, sep: char): (r: seq<string>)
    ensures r != []
  {
    if s == "" then [""]
    else if s[0] == sep then [""] + Split(s[1..], sep)
    else var r := Split(s[1..], sep); [[s[0]] + r[0]] + r[1..]
  }

  function Join(segs: seq<string>, sep: char): string {
    if segs == [] then "" else if |segs| == 1 then segs[0] else segs[0] + [sep] + Join(segs[1..], sep)
  }

  /** No segment holds the separator. */
  predicate Free(segs: seq<string>, sep: char) {
    forall k | 0 <= k < |segs| :: sep !in segs[k]
  }

  lemma {:induction false} SplitAt(a: string, b: string, sep: char)
    ensures Split(a + [sep] + b, sep) == Split(a, sep) + Split(b, sep)
  {
    var s := a + [sep] + b;
    if a == "" {
      assert s[1..] == b;
    } else {
      assert s[1..] == a[1..] + [sep] + b;
      SplitAt(a[1..], b, sep);
    }
  }

  lemma {:induction false} SplitName(seg: string, sep: char)
    requires sep !in seg
    ensures Split(seg, sep) == [seg]
  {
    if seg != "" {
      SplitName(seg[1..], sep);
      assert [seg[0]] + seg[1..] == seg;
    }
  }

  lemma {:induction false} SplitIsFree(s: string, sep: char)
    ensures Free(Split(s, sep), sep)
  {
    if s != "" { SplitIsFree(s[1..], sep); }
  }

  lemma {:induction false} SplitJoin(segs: seq<string>, sep: char)
    requires segs != [] && Free(segs, sep)
    ensures Split(Join(segs, sep), sep) == segs
  {
    SplitName(segs[0], sep);
    if |segs| > 1 {
      SplitJoin(segs[1..], sep);
      SplitAt(segs[0], Join(segs[1..], sep), sep);
    }
  }

  lemma {:induction false} JoinSplit(s: string, sep: char)
    ensures Join(Split(s, sep), sep) == s
  {
    if s != "" {
      JoinSplit(s[1..], sep);
      var r := Split(s[1..], sep);
      if s[0] == sep {
        assert ([""] + r)[1..] == r;
      } else {
        assert ([[s[0]] + r[0]] + r[1..])[1..] == r[1..];
        assert s == [s[0]] + s[1..];
      }
    }
  }

  lemma {:induction false} JoinAppend(a: seq<string>, b: seq<string>, sep: char)
    requires a != [] && b != []
    ensures Join(a + b, sep) == Join(a, sep) + [sep] + Join(b, sep)
  {
    if |a| == 1 {
      assert (a + b)[1..] == b;
    } else {
      assert (a + b)[1..] == a[1..] + b;
      JoinAppend(a[1..], b, sep);
    }
  }

  function TrimLeft(s: string, cut: char -> bool): string {
    if s != "" && cut(s[0]) then TrimLeft(s[1..], cut) else s
  }

  function TrimRight(s: string, cut: char -> bool): string {
    if s != "" && cut(s[|s|-1]) then TrimRight(s[..|s|-1], cut) else s
  }

  function Trim(s: string, cut: char -> bool): string {
    TrimRight(TrimLeft(s, cut), cut)
  }

  /** Bare at both ends, and what was cut. */
  ghost predicate Trimmed(s: string, cut: char -> bool, a: string, t: string, b: string) {
    && s == a + t + b
    && (forall c | c in a || c in b :: cut(c))
    && (t != "" ==> !cut(t[0]) && !cut(t[|t|-1]))
  }

  lemma {:induction false} TrimLeftParts(s: string, cut: char -> bool) returns (a: string)
    ensures s == a + TrimLeft(s, cut) && forall c | c in a :: cut(c)
    ensures TrimLeft(s, cut) != "" ==> !cut(TrimLeft(s, cut)[0])
  {
    a := "";
    if s != "" && cut(s[0]) {
      var rest := TrimLeftParts(s[1..], cut);
      a := [s[0]] + rest;
    }
  }

  lemma {:induction false} TrimRightParts(s: string, cut: char -> bool) returns (b: string)
    ensures s == TrimRight(s, cut) + b && forall c | c in b :: cut(c)
    ensures TrimRight(s, cut) != "" ==> !cut(TrimRight(s, cut)[|TrimRight(s, cut)|-1])
  {
    b := "";
    if s != "" && cut(s[|s|-1]) {
      var rest := TrimRightParts(s[..|s|-1], cut);
      b := rest + [s[|s|-1]];
    }
  }

  lemma TrimParts(s: string, cut: char -> bool) returns (a: string, b: string)
    ensures Trimmed(s, cut, a, Trim(s, cut), b)
  {
    a := TrimLeftParts(s, cut);
    b := TrimRightParts(TrimLeft(s, cut), cut);
    assert Trim(s, cut) != "" ==> Trim(s, cut)[0] == TrimLeft(s, cut)[0];
  }

  /** Trim is the one way to cut. */
  lemma {:induction false} TrimmedIsTrim(s: string, cut: char -> bool, a: string, t: string, b: string)
    requires Trimmed(s, cut, a, t, b)
    ensures t == Trim(s, cut)
    decreases |s|
  {
    if a != "" {
      assert s[1..] == a[1..] + t + b && s[0] == a[0];
      TrimmedIsTrim(s[1..], cut, a[1..], t, b);
    } else if t == "" {
      if b != "" { TrimmedIsTrim(s[1..], cut, "", "", b[1..]); }
    } else {
      assert s == t + b && s[0] == t[0];
      TrimRightOver(t, cut, b);
    }
  }

  lemma {:induction false} TrimRightOver(t: string, cut: char -> bool, b: string)
    requires t != "" && !cut(t[|t|-1]) && forall c | c in b :: cut(c)
    ensures TrimRight(t + b, cut) == t
    decreases |b|
  {
    if b == "" {
      assert t + b == t;
    } else {
      var s := t + b;
      assert s[|s|-1] == b[|b|-1] && b[|b|-1] in b && s[..|s|-1] == t + b[..|b|-1];
      TrimRightOver(t, cut, b[..|b|-1]);
    }
  }

  predicate Blank(c: char) {
    c == ' ' || c == '\t' || c == '\n' || c == '\r' || c == '\U{0B}' || c == '\U{0C}'
  }

  /** strings.TrimSpace, for ASCII space. */
  function TrimSpace(s: string): string {
    Trim(s, Blank)
  }

  /** A text is nothing but blanks exactly when nothing is left of it. */
  lemma SpaceExactly(s: string)
    ensures TrimSpace(s) == "" <==> forall k | 0 <= k < |s| :: Blank(s[k])
  {
    if TrimSpace(s) == "" {
      var a, b := TrimParts(s, Blank);
      assert s == a + b;
      forall k | 0 <= k < |s| ensures Blank(s[k]) { assert s[k] in a || s[k] in b; }
    }
    if forall k | 0 <= k < |s| :: Blank(s[k]) {
      assert s == s + "" + "";
      TrimmedIsTrim(s, Blank, s, "", "");
    }
  }
}
