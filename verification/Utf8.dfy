/** UTF-8 (RFC 3629, sections 3 and 4) on text held as one char per byte. */
module Utf8 {
  predicate Cont(c: char) {
    0x80 <= c as int < 0xC0
  }

  /** utf8.RuneStart. */
  predicate RuneStart(c: char) {
    !Cont(c)
  }

  /** The length of the well-formed sequence at the front, 0 if there is none. */
  function Width(s: string): (w: nat)
    ensures w <= |s| && w <= 4
  {
    if s == "" then 0
    else var c := s[0] as int;
      if c < 0x80 then 1
      else if 0xC2 <= c <= 0xDF then (if |s| >= 2 && Cont(s[1]) then 2 else 0)
      else if 0xE0 <= c <= 0xEF then
        (if |s| >= 3 && Cont(s[1]) && Cont(s[2])
            && (c == 0xE0 ==> s[1] as int >= 0xA0) && (c == 0xED ==> s[1] as int < 0xA0)
         then 3 else 0)
      else if 0xF0 <= c <= 0xF4 then
        (if |s| >= 4 && Cont(s[1]) && Cont(s[2]) && Cont(s[3])
            && (c == 0xF0 ==> s[1] as int >= 0x90) && (c == 0xF4 ==> s[1] as int < 0x90)
         then 4 else 0)
      else 0
  }

  predicate Valid(s: string) {
    s == "" || (Width(s) > 0 && Valid(s[Width(s)..]))
  }

  lemma WidthIsFront(s: string, t: string)
    requires Width(s) > 0
    ensures Width(s + t) == Width(s) && RuneStart(s[0])
    ensures forall k | 0 < k < Width(s) :: Cont(s[k])
    ensures Width(s) > 1 ==> s[0] as int >= 0x80
  {
  }

  lemma WidthOfPart(s: string, k: nat)
    requires Width(s) <= k <= |s| && Width(s) > 0
    ensures Width(s[..k]) == Width(s)
  {
  }

  lemma {:induction false} ValidAppend(a: string, b: string)
    requires Valid(a) && Valid(b)
    ensures Valid(a + b)
    decreases |a|
  {
    if a == "" {
      assert a + b == b;
    } else {
      WidthIsFront(a, b);
      assert (a + b)[Width(a)..] == a[Width(a)..] + b;
      ValidAppend(a[Width(a)..], b);
    }
  }

  lemma Slices(s: string, w: nat, k: nat)
    requires w <= k <= |s|
    ensures s[..k][w..] == s[w..][..k - w]
    ensures s[w..][k - w..] == s[k..]
  {
  }

  /** A cut behind the first sequence is one of what follows it. */
  lemma CutBehind(s: string, k: nat)
    requires 0 < Width(s) <= k <= |s|
    requires k > Width(s) ==> Valid(s[Width(s)..][..k - Width(s)]) && Valid(s[Width(s)..][k - Width(s)..])
    requires k == Width(s) ==> Valid(s[k..])
    ensures Valid(s[..k]) && Valid(s[k..])
  {
    WidthOfPart(s, k);
    Slices(s, Width(s), k);
    if k == Width(s) { assert s[..k][k..] == ""; }
  }

  /** Valid text splits into valid halves at the start of a sequence. */
  lemma {:induction false} ValidSplit(s: string, k: nat)
    requires Valid(s) && k <= |s| && (k == |s| || RuneStart(s[k]))
    ensures Valid(s[..k]) && Valid(s[k..])
    decreases |s|
  {
    if k == 0 {
      assert s[..k] == "" && s[k..] == s;
    } else {
      var w := Width(s);
      WidthIsFront(s, "");
      assert k >= w;
      if k > w {
        assert k < |s| ==> s[w..][k - w] == s[k];
        ValidSplit(s[w..], k - w);
      }
      CutBehind(s, k);
    }
  }

  /** In valid text a sequence starts at every place or at most three before it. */
  lemma {:induction false} StartIsNear(s: string, k: nat)
    requires Valid(s) && k < |s|
    ensures exists j :: k - 3 <= j <= k && 0 <= j && RuneStart(s[j])
    decreases |s|
  {
    var w := Width(s);
    WidthIsFront(s, "");
    if k < w {
      assert RuneStart(s[0]);
    } else {
      StartIsNear(s[w..], k - w);
      var j :| k - w - 3 <= j <= k - w && 0 <= j && RuneStart(s[w..][j]);
      assert RuneStart(s[w + j]);
    }
  }
}
