/** Filling an automation's template from its event and notes (internal/brain/automations/interpolate.go);
    text is one char per byte. */
module Interpolate {
  import opened Options
  import opened Strings
  import opened Utf8

  const MAX_INTERPOLATED := 32768

  // ---------------------------------------------------------------- values

  datatype Value = Null | Scalar(text: string) | Array(items: seq<Value>) | Object(fields: map<string, Value>)

  /** The value at a path; Null when a step is missing or not an object. */
  function Lookup(v: Value, path: seq<string>): Value
    decreases |path|
  {
    if path == [] then v
    else if v.Object? && path[0] in v.fields then Lookup(v.fields[path[0]], path[1..])
    else Null
  }

  method LookupPath(v: Value, path: seq<string>) returns (cur: Value)
    ensures cur == Lookup(v, path)
  {
    cur := v;
    for k := 0 to |path|
      invariant Lookup(cur, path[k..]) == Lookup(v, path)
    {
      if !cur.Object? {
        return Null;
      }
      assert path[k..][1..] == path[k+1..];
      cur := if path[k] in cur.fields then cur.fields[path[k]] else Null;
    }
  }

  /** `v` put under `path` into what is there: objects on the way keep their other fields. */
  function PutAt(root: Value, path: seq<string>, v: Value): Value
    decreases |path|
  {
    if path == [] then v
    else
      var fields := if root.Object? then root.fields else map[];
      var below := if path[0] in fields then fields[path[0]] else Null;
      Object(fields[path[0] := PutAt(below, path[1..], v)])
  }

  /** A value is found where it was put, and putting it there moves nothing beside that path. */
  lemma {:induction false} FoundWherePut(root: Value, path: seq<string>, v: Value, other: seq<string>)
    ensures Lookup(PutAt(root, path, v), path) == v
    ensures Beside(path, other) && Lookup(root, other) != Null ==>
              Lookup(PutAt(root, path, v), other) == Lookup(root, other)
    decreases |path|
  {
    if path != [] {
      var fields := if root.Object? then root.fields else map[];
      var below := if path[0] in fields then fields[path[0]] else Null;
      if other != [] && other[0] == path[0] {
        FoundWherePut(below, path[1..], v, other[1..]);
      } else {
        FoundWherePut(below, path[1..], v, []);
      }
    }
  }

  /** The paths part: neither leads to or through the other. */
  predicate Beside(a: seq<string>, b: seq<string>) {
    a != [] && b != [] && (a[0] != b[0] || Beside(a[1..], b[1..]))
  }

  /** A step that is missing, or taken from what is no object, leads to nothing, and nothing prints as "". */
  lemma {:induction false} MissingIsEmpty(json: Value -> string, root: Value, path: seq<string>, k: nat)
    requires k < |path|
    requires var at := Lookup(root, path[..k]); !at.Object? || path[k] !in at.fields
    ensures Lookup(root, path) == Null && RenderValue(json, Lookup(root, path)) == ""
    decreases |path|
  {
    if k > 0 {
      assert path[..k][1..] == path[1..][..k-1];
      if root.Object? && path[0] in root.fields { MissingIsEmpty(json, root.fields[path[0]], path[1..], k - 1); }
    }
  }

  /** A scalar as it prints, an object or array as JSON, Null as nothing. */
  function RenderValue(json: Value -> string, v: Value): string {
    match v
    case Null => ""
    case Scalar(text) => text
    case _ => json(v)
  }

  // ---------------------------------------------------------------- placeholders

  predicate Brace(c: char) {
    c == '{' || c == '}'
  }

  predicate Space(c: char) {
    c in {'\t', '\n', '\U{0C}', '\r', ' '}
  }

  function BraceAt(s: string, from: nat): (j: nat)
    requires from <= |s|
    ensures from <= j <= |s| && (j < |s| ==> Brace(s[j])) && forall k | from <= k < j :: !Brace(s[k])
    decreases |s| - from
  {
    if from == |s| || Brace(s[from]) then from else BraceAt(s, from + 1)
  }

  /** The text `raw` matches placeholderRe: two braces around a brace-free body. */
  predicate Hole(raw: string) {
    && |raw| >= 4 && raw[..2] == "{{" && raw[|raw|-2..] == "}}"
    && forall k | 2 <= k < |raw| - 2 :: !Brace(raw[k])
  }

  /** The length of the match at the front of `s`, 0 if there is none. */
  function HoleLength(s: string): (n: nat)
    ensures n <= |s|
  {
    if |s| < 2 || s[..2] != "{{" then 0
    else var j := BraceAt(s, 2);
      if j + 2 <= |s| && s[j..j+2] == "}}" then j + 2 else 0
  }

  /** At most one match starts at a place. */
  lemma HoleLengthExactly(s: string, n: nat)
    requires 0 < n <= |s|
    ensures HoleLength(s) == n <==> Hole(s[..n])
  {
    if |s| >= 2 && s[..2] == "{{" {
      var j := BraceAt(s, 2);
      if Hole(s[..n]) {
        var raw := s[..n];
        assert raw[n-2..][0] == raw[n-2] == s[n-2] && raw[n-2..][1] == raw[n-1] == s[n-1];
        assert Brace(s[n-2]);
        assert j <= n - 2;
        forall k | 2 <= k < n - 2 ensures !Brace(s[k]) { assert raw[k] == s[k]; }
        assert s[j..j+2] == "}}";
      }
      if HoleLength(s) == n {
        assert s[..n][..2] == s[..2] && s[..n][n-2..] == s[j..j+2];
      }
    }
    assert n >= 2 ==> s[..n][..2] == s[..2];
  }

  // ---------------------------------------------------------------- keys

  /** Submatch 1: the body without the space around it. */
  function KeyOf(raw: string): string
    requires Hole(raw)
  {
    Trim(raw[2..|raw|-2], Space)
  }

  predicate NoteChar(c: char) {
    'a' <= c <= 'z' || '0' <= c <= '9' || c == '_' || c == '-'
  }

  const NOTES := "notes."

  /** notesKeyRe's submatch. */
  function NoteName(key: string): Option<string> {
    if NOTES <= key && 1 <= |key| - |NOTES| <= 64 && (forall k | |NOTES| <= k < |key| :: NoteChar(key[k]))
    then Some(key[|NOTES|..]) else None
  }

  predicate NameStart(c: char) {
    'A' <= c <= 'Z' || 'a' <= c <= 'z' || c == '_'
  }

  predicate StepName(n: string) {
    n != "" && NameStart(n[0]) && forall k | 0 <= k < |n| :: NameStart(n[k]) || '0' <= n[k] <= '9' || n[k] == '-'
  }

  /** eventPathRe's steps: names joined by dots after "event". */
  function EventPath(key: string): Option<seq<string>> {
    var steps := Split(key, '.');
    if |steps| >= 2 && steps[0] == "event" && (forall k | 1 <= k < |steps| :: StepName(steps[k]))
    then Some(steps[1..]) else None
  }

  datatype Context = Context(event: Value, notes: map<string, string>, json: Value -> string)

  predicate Known(raw: string)
    requires Hole(raw)
  {
    NoteName(KeyOf(raw)).Some? || EventPath(KeyOf(raw)).Some?
  }

  /** What stands in for a placeholder. */
  function Fill(c: Context, raw: string): string
    requires Hole(raw)
  {
    match NoteName(KeyOf(raw))
    case Some(n) => if n in c.notes then c.notes[n] else ""
    case None =>
      match EventPath(KeyOf(raw))
      case Some(path) => RenderValue(c.json, Lookup(c.event, path))
      case None => raw
  }

  // ---------------------------------------------------------------- one pass

  /** ReplaceAllStringFunc: the leftmost match, what it becomes, and on with the text after it. */
  function Expand(c: Context, s: string): string
    decreases |s|
  {
    if s == "" then ""
    else
      var n := HoleLength(s);
      if n == 0 then
        [s[0]] + Expand(c, s[1..])
      else
        HoleLengthExactly(s, n);
        Fill(c, s[..n]) + Expand(c, s[n..])
  }

  function Interpolate(c: Context, s: string): string {
    TruncateUTF8(Expand(c, s), MAX_INTERPOLATED)
  }

  /** A template's pieces: plain text and placeholders. */
  datatype Piece = Text(text: string) | Slot(raw: string)

  predicate WellFormed(p: Piece) {
    if p.Text? then p.text != "" else Hole(p.raw)
  }

  function Pieces(s: string): seq<Piece>
    decreases |s|
  {
    if s == "" then []
    else var n := HoleLength(s);
      if n == 0 then [Text(s[..1])] + Pieces(s[1..])
      else [Slot(s[..n])] + Pieces(s[n..])
  }

  function Source(p: Piece): string {
    if p.Text? then p.text else p.raw
  }

  function Shown(c: Context, p: Piece): string
    requires WellFormed(p)
  {
    if p.Text? then p.text else Fill(c, p.raw)
  }

  function PrintPieces(ps: seq<Piece>): string {
    if ps == [] then "" else Source(ps[0]) + PrintPieces(ps[1..])
  }

  function ShowPieces(c: Context, ps: seq<Piece>): string
    requires forall k | 0 <= k < |ps| :: WellFormed(ps[k])
  {
    if ps == [] then "" else Shown(c, ps[0]) + ShowPieces(c, ps[1..])
  }

  /** The pieces are the template: they print back to it, and the result is theirs, one by one, so what
      a placeholder becomes is never looked at again. */
  lemma {:induction false} ExpandIsPiecewise(c: Context, s: string)
    ensures forall k | 0 <= k < |Pieces(s)| :: WellFormed(Pieces(s)[k])
    ensures PrintPieces(Pieces(s)) == s
    ensures Expand(c, s) == ShowPieces(c, Pieces(s))
    decreases |s|
  {
    if s != "" {
      var n := HoleLength(s);
      var first := if n == 0 then 1 else n;
      FirstPiece(c, s);
      ExpandIsPiecewise(c, s[first..]);
      PiecesCons(c, Pieces(s)[0], Pieces(s[first..]));
      assert s == s[..first] + s[first..];
    }
  }

  /** The first piece, and what stands for it in the result. */
  lemma FirstPiece(c: Context, s: string)
    requires s != ""
    ensures var n := HoleLength(s);
            var first := if n == 0 then 1 else n;
            var piece := if n == 0 then Text(s[..1]) else Slot(s[..n]);
            && first <= |s| && WellFormed(piece) && Source(piece) == s[..first]
            && Pieces(s) == [piece] + Pieces(s[first..])
            && Expand(c, s) == Shown(c, piece) + Expand(c, s[first..])
  {
    if HoleLength(s) > 0 { HoleLengthExactly(s, HoleLength(s)); } else { assert s[..1] == [s[0]]; }
  }

  lemma PiecesCons(c: Context, p: Piece, rest: seq<Piece>)
    requires WellFormed(p) && forall k | 0 <= k < |rest| :: WellFormed(rest[k])
    ensures forall k | 0 <= k < |[p] + rest| :: WellFormed(([p] + rest)[k])
    ensures PrintPieces([p] + rest) == Source(p) + PrintPieces(rest)
    ensures ShowPieces(c, [p] + rest) == Shown(c, p) + ShowPieces(c, rest)
  {
    assert ([p] + rest)[1..] == rest;
  }

  /** No placeholder starts in `t` where it stands before `s`. */
  predicate Quiet(t: string, s: string) {
    forall j | 0 <= j < |t| :: HoleLength(t[j..] + s) == 0
  }

  /** The pieces are read as they were written. */
  predicate Unambiguous(ps: seq<Piece>) {
    ps == []
    || ((ps[0].Text? ==> Quiet(ps[0].text, PrintPieces(ps[1..]))) && Unambiguous(ps[1..]))
  }

  lemma {:induction false} ExpandOverText(c: Context, t: string, s: string)
    requires Quiet(t, s)
    ensures Expand(c, t + s) == t + Expand(c, s)
    decreases |t|
  {
    if t == "" {
      assert t + s == s;
    } else {
      assert t[0..] + s == t + s && (t + s)[0] == t[0] && (t + s)[1..] == t[1..] + s;
      assert HoleLength(t + s) == 0;
      forall j | 0 <= j < |t| - 1 ensures HoleLength(t[1..][j..] + s) == 0 { assert t[1..][j..] == t[j + 1..]; }
      ExpandOverText(c, t[1..], s);
      Associate([t[0]], t[1..], Expand(c, s));
      assert [t[0]] + t[1..] == t;
    }
  }

  lemma Associate(a: string, b: string, c: string)
    ensures (a + b) + c == a + (b + c)
  {
  }

  /** Text without an opening brace is quiet before anything. */
  lemma BareIsQuiet(t: string, s: string)
    requires '{' !in t
    ensures Quiet(t, s)
  {
    forall j | 0 <= j < |t| ensures HoleLength(t[j..] + s) == 0 {
      assert t[j] in t;
      assert |t[j..] + s| >= 2 ==> (t[j..] + s)[..2][0] == t[j];
    }
  }

  lemma ExpandOverHole(c: Context, raw: string, s: string)
    requires Hole(raw)
    ensures Expand(c, raw + s) == Fill(c, raw) + Expand(c, s)
  {
    assert (raw + s)[..|raw|] == raw && (raw + s)[|raw|..] == s;
    HoleLengthExactly(raw + s, |raw|);
  }

  /** Whatever template is written as plain text and placeholders, in any order, comes out as that text
      with each placeholder filled, whatever the filled-in values hold; the text may hold braces, as long as
      no placeholder starts in it. */
  lemma {:induction false} ExpandWritten(c: Context, ps: seq<Piece>)
    requires (forall k | 0 <= k < |ps| :: WellFormed(ps[k])) && Unambiguous(ps)
    ensures Expand(c, PrintPieces(ps)) == ShowPieces(c, ps)
  {
    if ps != [] {
      var rest := PrintPieces(ps[1..]);
      assert WellFormed(ps[0]);
      ExpandWritten(c, ps[1..]);
      if ps[0].Text? { ExpandOverText(c, ps[0].text, rest); } else { ExpandOverHole(c, ps[0].raw, rest); }
    }
  }

  /** A template without known placeholders is only capped. */
  lemma {:induction false} UnknownStaysLiteral(c: Context, s: string)
    requires forall k | 0 <= k < |Pieces(s)| && Pieces(s)[k].Slot? && Hole(Pieces(s)[k].raw) :: !Known(Pieces(s)[k].raw)
    ensures Expand(c, s) == s
    decreases |s|
  {
    if s != "" {
      var n := HoleLength(s);
      if n != 0 { HoleLengthExactly(s, n); }
      var first := if n == 0 then 1 else n;
      assert s == s[..first] + s[first..];
      var rest := Pieces(s[first..]);
      assert Pieces(s)[1..] == rest;
      forall k | 0 <= k < |rest| && rest[k].Slot? && Hole(rest[k].raw) ensures !Known(rest[k].raw) {
        assert Pieces(s)[k + 1] == rest[k];
      }
      if n != 0 { assert Pieces(s)[0] == Slot(s[..n]); }
      UnknownStaysLiteral(c, s[first..]);
    }
  }

  // ---------------------------------------------------------------- what a placeholder names

  predicate KeyChar(c: char) {
    NameStart(c) || '0' <= c <= '9' || c == '-' || c == '.'
  }

  predicate KeyText(key: string) {
    key != "" && forall k | 0 <= k < |key| :: KeyChar(key[k])
  }

  predicate AllSpace(s: string) {
    forall k | 0 <= k < |s| :: Space(s[k])
  }

  function Written(a: string, key: string, b: string): string {
    "{{" + (a + key + b) + "}}"
  }

  /** Space around the key makes no difference. */
  lemma WrittenIsHole(a: string, key: string, b: string)
    requires AllSpace(a) && AllSpace(b) && KeyText(key)
    ensures Hole(Written(a, key, b)) && KeyOf(Written(a, key, b)) == key
  {
    var body, raw := a + key + b, Written(a, key, b);
    assert raw[2..|raw|-2] == body && raw[..2] == "{{" && raw[|raw|-2..] == "}}";
    forall k | 0 <= k < |body| ensures !Brace(body[k]) {
      assert body[k] == if k < |a| then a[k] else if k < |a| + |key| then key[k - |a|] else b[k - |a| - |key|];
    }
    forall k | 2 <= k < |raw| - 2 ensures !Brace(raw[k]) { assert raw[k] == body[k - 2]; }
    assert KeyChar(key[0]) && KeyChar(key[|key|-1]);
    TrimmedIsTrim(body, Space, a, key, b);
  }

  lemma {:induction false} JoinIsKeyText(steps: seq<string>)
    requires steps != [] && forall k | 0 <= k < |steps| :: StepName(steps[k])
    ensures KeyText(Join(steps, '.'))
  {
    assert StepName(steps[0]);
    if |steps| > 1 { JoinIsKeyText(steps[1..]); }
  }

  /** A key is an event path exactly when it is "event" and step names joined by dots. */
  lemma EventPathExactly(key: string, path: seq<string>)
    ensures EventPath(key) == Some(path) <==>
            path != [] && (forall k | 0 <= k < |path| :: StepName(path[k])) && key == Join(["event"] + path, '.')
  {
    var steps := Split(key, '.');
    JoinSplit(key, '.');
    if EventPath(key) == Some(path) {
      assert steps == ["event"] + path;
    }
    if path != [] && (forall k | 0 <= k < |path| :: StepName(path[k])) && key == Join(["event"] + path, '.') {
      forall k | 0 <= k < |path| ensures '.' !in path[k] { assert StepName(path[k]); }
      assert Free(["event"] + path, '.');
      SplitJoin(["event"] + path, '.');
      assert (["event"] + path)[1..] == path;
    }
  }

  /** {{event.a.b}}, however spaced, is the value at that path, nothing when it is missing. */
  lemma EventIsFilled(c: Context, a: string, path: seq<string>, key: string, b: string)
    requires AllSpace(a) && AllSpace(b) && path != [] && forall k | 0 <= k < |path| :: StepName(path[k])
    requires key == Join(["event"] + path, '.')
    ensures Hole(Written(a, key, b)) && Fill(c, Written(a, key, b)) == RenderValue(c.json, Lookup(c.event, path))
  {
    EventKey(path, ["event"] + path, key);
    FilledFrom(c, a, key, path, b);
  }

  lemma EventKey(path: seq<string>, steps: seq<string>, key: string)
    requires path != [] && (forall k | 0 <= k < |path| :: StepName(path[k]))
    requires steps == ["event"] + path && key == Join(steps, '.')
    ensures KeyText(key) && key[0] == 'e' && EventPath(key) == Some(path)
  {
    assert StepName(steps[0]);
    JoinIsKeyText(steps);
    EventPathExactly(key, path);
    assert key == steps[0] + "." + Join(steps[1..], '.');
  }

  lemma FilledFrom(c: Context, a: string, key: string, path: seq<string>, b: string)
    requires AllSpace(a) && AllSpace(b) && KeyText(key) && key[0] == 'e' && EventPath(key) == Some(path)
    ensures Hole(Written(a, key, b)) && Fill(c, Written(a, key, b)) == RenderValue(c.json, Lookup(c.event, path))
  {
    WrittenIsHole(a, key, b);
    assert NOTES[0] == 'n';
  }

  /** {{notes.NAME}} is that note's content, nothing when there is none. */
  lemma NoteIsFilled(c: Context, a: string, name: string, b: string)
    requires AllSpace(a) && AllSpace(b) && 1 <= |name| <= 64 && forall k | 0 <= k < |name| :: NoteChar(name[k])
    ensures var raw := Written(a, NOTES + name, b);
            Hole(raw) && Fill(c, raw) == if name in c.notes then c.notes[name] else ""
  {
    var key := NOTES + name;
    forall k | 0 <= k < |key| ensures KeyChar(key[k]) { assert k >= |NOTES| ==> key[k] == name[k - |NOTES|]; }
    WrittenIsHole(a, key, b);
    assert key[|NOTES|..] == name;
  }

  // ---------------------------------------------------------------- the cap

  /** The last place at or before `cut` where a sequence starts. */
  function CutAt(s: string, cut: nat): (c: nat)
    requires cut < |s|
    ensures c <= cut
  {
    if cut > 0 && !RuneStart(s[cut]) then CutAt(s, cut - 1) else cut
  }

  function TruncateUTF8(s: string, max: nat): string {
    if |s| <= max then s else s[..CutAt(s, max)]
  }

  method Truncate(s: string, max: nat) returns (r: string)
    ensures r == TruncateUTF8(s, max)
  {
    if |s| <= max {
      return s;
    }
    var cut := max;
    while cut > 0 && !RuneStart(s[cut])
      invariant 0 <= cut <= max
      invariant CutAt(s, cut) == CutAt(s, max)
    {
      cut := cut - 1;
    }
    r := s[..cut];
  }

  predicate Boundary(s: string, k: nat)
    requires k <= |s|
  {
    k == 0 || k == |s| || RuneStart(s[k])
  }

  lemma {:induction false} CutIsLast(s: string, cut: nat)
    requires cut < |s|
    ensures Boundary(s, CutAt(s, cut)) && forall k | CutAt(s, cut) < k <= cut :: !Boundary(s, k)
  {
    if cut > 0 && !RuneStart(s[cut]) { CutIsLast(s, cut - 1); }
  }

  /** The cap keeps the longest prefix within `max` bytes that ends between sequences; of valid text it
      keeps valid text, and drops at most three bytes below the cap. */
  lemma TruncateIsLongest(s: string, max: nat)
    ensures var r := TruncateUTF8(s, max);
            && r <= s && |r| <= max && Boundary(s, |r|)
            && (forall k | |r| < k <= max && k <= |s| :: !Boundary(s, k))
            && (Valid(s) ==> Valid(r) && (|s| > max ==> max <= |r| + 3))
  {
    if |s| > max {
      var cut := CutAt(s, max);
      CutIsLast(s, max);
      if Valid(s) {
        StartIsNear(s, max);
        var j :| max - 3 <= j <= max && 0 <= j && RuneStart(s[j]);
        if cut < j { assert Boundary(s, j); }
        if cut == 0 { assert s[..cut] == ""; } else { ValidSplit(s, cut); }
      }
    }
  }

  // ---------------------------------------------------------------- valid in, valid out

  /** Every value the template can name prints as valid text. */
  ghost predicate ValidContext(c: Context) {
    && (forall n | n in c.notes :: Valid(c.notes[n]))
    && (forall path :: Valid(RenderValue(c.json, Lookup(c.event, path))))
  }

  lemma HoleIsValid(s: string, n: nat)
    requires Valid(s) && 0 < n <= |s| && HoleLength(s) == n
    ensures Valid(s[..n]) && Valid(s[n..])
  {
    HoleLengthExactly(s, n);
    assert s[..n][n-2..][1] == s[n-1];
    EndsAscii(s, n);
  }

  /** A sequence starts after every ASCII byte of valid text. */
  lemma {:induction false} EndsAscii(s: string, n: nat)
    requires Valid(s) && 0 < n <= |s| && (s[n-1] as int) < 0x80
    ensures Valid(s[..n]) && Valid(s[n..])
    decreases |s|
  {
    var w := Width(s);
    WidthIsFront(s, "");
    assert n >= w;
    if n > w {
      assert s[w..][n - w - 1] == s[n-1];
      EndsAscii(s[w..], n - w);
    }
    CutBehind(s, n);
  }

  lemma {:induction false} NoHoleInSequence(c: Context, s: string, w: nat)
    requires w <= |s| && forall k | 0 <= k < w :: s[k] != '{'
    ensures Expand(c, s) == s[..w] + Expand(c, s[w..])
  {
    assert s == s[..w] + s[w..];
    BareIsQuiet(s[..w], s[w..]);
    ExpandOverText(c, s[..w], s[w..]);
  }

  lemma {:induction false} ExpandIsValid(c: Context, s: string)
    requires Valid(s) && ValidContext(c)
    ensures Valid(Expand(c, s))
    decreases |s|
  {
    if s != "" {
      var n := HoleLength(s);
      if n != 0 {
        HoleIsValid(s, n);
        ExpandIsValid(c, s[n..]);
        ValidOverHole(c, s, n);
      } else {
        ExpandIsValid(c, s[Width(s)..]);
        FirstSequence(c, s);
        ValidAppend(s[..Width(s)], Expand(c, s[Width(s)..]));
      }
    }
  }

  lemma ValidOverHole(c: Context, s: string, n: nat)
    requires 0 < n <= |s| && HoleLength(s) == n && Valid(s[..n]) && ValidContext(c) && Valid(Expand(c, s[n..]))
    ensures Valid(Expand(c, s))
  {
    HoleLengthExactly(s, n);
    FillIsValid(c, s[..n]);
    ValidAppend(Fill(c, s[..n]), Expand(c, s[n..]));
  }

  lemma FillIsValid(c: Context, raw: string)
    requires Hole(raw) && Valid(raw) && ValidContext(c)
    ensures Valid(Fill(c, raw))
  {
  }

  /** Where no placeholder starts the first sequence is copied whole. */
  lemma FirstSequence(c: Context, s: string)
    requires s != "" && Valid(s) && HoleLength(s) == 0
    ensures Valid(s[..Width(s)]) && Expand(c, s) == s[..Width(s)] + Expand(c, s[Width(s)..])
  {
    var w := Width(s);
    WidthIsFront(s, "");
    WidthOfPart(s, w);
    assert s[..w][w..] == "";
    if w == 1 { assert s[..1] == [s[0]]; } else { NoHoleInSequence(c, s, w); }
  }

  /** With a valid template and valid values the result is valid and within the cap. */
  lemma InterpolateIsValid(c: Context, s: string)
    requires Valid(s) && ValidContext(c)
    ensures Valid(Interpolate(c, s)) && |Interpolate(c, s)| <= 32768
  {
    ExpandIsValid(c, s);
    TruncateIsLongest(Expand(c, s), MAX_INTERPOLATED);
  }

  // ---------------------------------------------------------------- the whole

  /** The operation: the template's text with each placeholder filled when that is at most 32768 bytes, else the
      longest prefix of it within 32768 bytes that ends between runes. */
  lemma InterpolateWritten(c: Context, ps: seq<Piece>)
    requires (forall k | 0 <= k < |ps| :: WellFormed(ps[k])) && Unambiguous(ps)
    ensures var r, whole := Interpolate(c, PrintPieces(ps)), ShowPieces(c, ps);
            && r <= whole && (|whole| <= 32768 ==> r == whole)
            && (|whole| > 32768 ==>
                  && |r| <= 32768 && Boundary(whole, |r|)
                  && forall k | |r| < k <= 32768 :: !Boundary(whole, k))
  {
    ExpandWritten(c, ps);
    TruncateIsLongest(ShowPieces(c, ps), 32768);
  }

  /** A note between two plain texts, in full. */
  lemma NoteInText(c: Context, before: string, name: string, after: string)
    requires '{' !in before && '{' !in after
    requires 1 <= |name| <= 64 && forall k | 0 <= k < |name| :: NoteChar(name[k])
    requires var note := if name in c.notes then c.notes[name] else "";
             |before| + |note| + |after| <= 32768
    ensures Interpolate(c, before + ("{{notes." + name + "}}") + after)
            == before + (if name in c.notes then c.notes[name] else "") + after
  {
    var raw := "{{notes." + name + "}}";
    assert Written("", NOTES + name, "") == raw by { assert "" + (NOTES + name) + "" == NOTES + name; }
    NoteIsFilled(c, "", name, "");
    BetweenTexts(c, before, raw, after);
  }

  /** ... and an event's value, however deep it lies. */
  lemma EventInText(c: Context, before: string, path: seq<string>, after: string)
    requires '{' !in before && '{' !in after
    requires path != [] && forall k | 0 <= k < |path| :: StepName(path[k])
    requires |before| + |RenderValue(c.json, Lookup(c.event, path))| + |after| <= 32768
    ensures Interpolate(c, before + ("{{" + Join(["event"] + path, '.') + "}}") + after)
            == before + RenderValue(c.json, Lookup(c.event, path)) + after
  {
    var key := Join(["event"] + path, '.');
    assert Written("", key, "") == "{{" + key + "}}" by { assert "" + key + "" == key; }
    EventIsFilled(c, "", path, key, "");
    BetweenTexts(c, before, "{{" + key + "}}", after);
  }

  lemma BetweenTexts(c: Context, before: string, raw: string, after: string)
    requires '{' !in before && '{' !in after && Hole(raw) && |before| + |Fill(c, raw)| + |after| <= 32768
    ensures Interpolate(c, before + raw + after) == before + Fill(c, raw) + after
  {
    BareIsQuiet(before, raw + after);
    BareIsQuiet(after, "");
    ExpandOverText(c, before, raw + after);
    ExpandOverHole(c, raw, after);
    ExpandOverText(c, after, "");
    assert after + "" == after;
    Associate(before, raw, after);
    Associate(before, Fill(c, raw), after);
  }

  /** A text stored in the event under a path is what {{event...}} of that path becomes, whatever else is there. */
  lemma StoredInText(c: Context, before: string, root: Value, path: seq<string>, text: string, after: string)
    requires '{' !in before && '{' !in after && c.event == PutAt(root, path, Scalar(text))
    requires path != [] && (forall k | 0 <= k < |path| :: StepName(path[k])) && |before| + |text| + |after| <= 32768
    ensures Interpolate(c, before + ("{{" + Join(["event"] + path, '.') + "}}") + after) == before + text + after
  {
    FoundWherePut(root, path, Scalar(text), []);
    EventInText(c, before, path, after);
  }

  /** A key names a note exactly when it is "notes." and 1 to 64 lower-case letters, digits, '_' or '-'. */
  lemma NoteNameExactly(key: string, name: string)
    ensures NoteName(key) == Some(name) <==>
            && key == "notes." + name && 1 <= |name| <= 64
            && forall k | 0 <= k < |name| :: 'a' <= name[k] <= 'z' || '0' <= name[k] <= '9' || name[k] in {'_', '-'}
  {
    if NoteName(key) == Some(name) {
      forall k | 0 <= k < |name| ensures NoteChar(name[k]) { assert name[k] == key[k + 6]; }
    }
    if key == "notes." + name {
      assert key[6..] == name && key[..6] == "notes.";
      forall k | 6 <= k < |key| ensures key[k] == name[k - 6] {}
    }
  }

  /** A placeholder that is neither stays as it is written. */
  lemma OtherInText(c: Context, before: string, raw: string, after: string)
    requires '{' !in before && '{' !in after && Hole(raw) && !Known(raw) && |before| + |raw| + |after| <= 32768
    ensures Interpolate(c, before + raw + after) == before + raw + after
  {
    BetweenTexts(c, before, raw, after);
  }

  /** A step is a letter or '_', then letters, digits, '_' and '-'. */
  lemma StepNameExactly(n: string)
    ensures StepName(n) <==>
            && n != "" && ('A' <= n[0] <= 'Z' || 'a' <= n[0] <= 'z' || n[0] == '_')
            && forall k | 0 < k < |n| ::
                 'A' <= n[k] <= 'Z' || 'a' <= n[k] <= 'z' || '0' <= n[k] <= '9' || n[k] == '_' || n[k] == '-'
  {
  }

  /** Braces alone make a placeholder: any text without braces between "{{" and "}}", key or not. */
  lemma HoleExactly(raw: string)
    ensures Hole(raw) <==> exists body :: raw == "{{" + body + "}}" && '{' !in body && '}' !in body
  {
    if Hole(raw) {
      var body := raw[2..|raw|-2];
      assert raw == raw[..2] + body + raw[|raw|-2..];
      assert forall k | 0 <= k < |body| :: body[k] == raw[k + 2];
    }
    if body :| raw == "{{" + body + "}}" && '{' !in body && '}' !in body {
      assert raw[..2] == "{{" && raw[|raw|-2..] == "}}" && raw[2..|raw|-2] == body;
      forall k | 2 <= k < |raw| - 2 ensures !Brace(raw[k]) { assert raw[k] == body[k - 2]; }
    }
  }
}
