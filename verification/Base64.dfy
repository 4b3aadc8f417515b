/** Unpadded base64url (RFC 4648, section 5) as the token code uses it: the decoder skips line breaks
    and ignores the bits a short last group leaves over. */
module Base64 {
  import opened Options

  type Byte = b: int | 0 <= b < 256
  type Sextet = v: int | 0 <= v < 64

  function Char(v: Sextet): char {
    if v < 26 then 'A' + v as char
    else if v < 52 then 'a' + (v - 26) as char
    else if v < 62 then '0' + (v - 52) as char
    else if v == 62 then '-' else '_'
  }

  function Value(c: char): Option<Sextet> {
    if 'A' <= c <= 'Z' then Some(c as int - 'A' as int)
    else if 'a' <= c <= 'z' then Some(c as int - 'a' as int + 26)
    else if '0' <= c <= '9' then Some(c as int - '0' as int + 52)
    else if c == '-' then Some(62) else if c == '_' then Some(63) else None
  }

  // three bytes are four sextets

  function S0(x: Byte): Sextet { x / 4 }
  function S1(x: Byte, y: Byte): Sextet { x % 4 * 16 + y / 16 }
  function S2(y: Byte, z: Byte): Sextet { y % 16 * 4 + z / 64 }
  function S3(z: Byte): Sextet { z % 64 }

  function B0(a: Sextet, b: Sextet): Byte { var n: int := a; n * 4 + b / 16 }
  function B1(b: Sextet, c: Sextet): Byte { var n: int := b; n % 16 * 16 + c / 4 }
  function B2(c: Sextet, d: Sextet): Byte { var n: int := c; n % 4 * 64 + d }

  lemma GroupOfBytes(x: Byte, y: Byte, z: Byte)
    ensures B0(S0(x), S1(x, y)) == x && B1(S1(x, y), S2(y, z)) == y && B2(S2(y, z), S3(z)) == z
  {
  }

  lemma GroupOfSextets(a: Sextet, b: Sextet, c: Sextet, d: Sextet)
    ensures S0(B0(a, b)) == a && S1(B0(a, b), B1(b, c)) == b && S2(B1(b, c), B2(c, d)) == c && S3(B2(c, d)) == d
    ensures S1(B0(a, b), 0) == b <==> b % 16 == 0
    ensures S2(B1(b, c), 0) == c <==> c % 4 == 0
  {
  }

  function Encode(b: seq<Byte>): string {
    if |b| == 0 then ""
    else if |b| == 1 then [Char(S0(b[0])), Char(S1(b[0], 0))]
    else if |b| == 2 then [Char(S0(b[0])), Char(S1(b[0], b[1])), Char(S2(b[1], 0))]
    else [Char(S0(b[0])), Char(S1(b[0], b[1])), Char(S2(b[1], b[2])), Char(S3(b[2]))] + Encode(b[3..])
  }

  function Unbroken(s: string): string {
    if s == "" then "" else (if s[0] == '\r' || s[0] == '\n' then "" else [s[0]]) + Unbroken(s[1..])
  }

  function Sextets(s: string): Option<seq<Sextet>> {
    if s == "" then Some([])
    else match (Value(s[0]), Sextets(s[1..]))
      case (Some(v), Some(rest)) => Some([v] + rest)
      case _ => None
  }

  /** A last group of one sextet is corrupt; of two or three, what is left over is ignored. */
  function Pack(v: seq<Sextet>): Option<seq<Byte>> {
    if |v| == 0 then Some([])
    else if |v| == 1 then None
    else if |v| == 2 then Some([B0(v[0], v[1])])
    else if |v| == 3 then Some([B0(v[0], v[1]), B1(v[1], v[2])])
    else match Pack(v[4..])
      case None => None
      case Some(rest) => Some([B0(v[0], v[1]), B1(v[1], v[2]), B2(v[2], v[3])] + rest)
  }

  function Decode(s: string): Option<seq<Byte>> {
    match Sextets(Unbroken(s))
    case None => None
    case Some(v) => Pack(v)
  }

  lemma ValueChar(c: char)
    requires Value(c).Some?
    ensures Char(Value(c).value) == c
  {
  }

  function Chars(v: seq<Sextet>): string {
    seq(|v|, i requires 0 <= i < |v| => Char(v[i]))
  }

  lemma {:induction false} CharsBack(v: seq<Sextet>)
    ensures Sextets(Chars(v)) == Some(v) && Unbroken(Chars(v)) == Chars(v) && '.' !in Chars(v)
  {
    var s := Chars(v);
    if v == [] {
      assert s == "";
    } else {
      assert s[1..] == Chars(v[1..]) && s == [Char(v[0])] + Chars(v[1..]);
      CharsBack(v[1..]);
      assert v == [v[0]] + v[1..];
    }
  }

  /** The sextets Encode writes. */
  function Spread(b: seq<Byte>): seq<Sextet> {
    if |b| == 0 then []
    else if |b| == 1 then [S0(b[0]), S1(b[0], 0)]
    else if |b| == 2 then [S0(b[0]), S1(b[0], b[1]), S2(b[1], 0)]
    else [S0(b[0]), S1(b[0], b[1]), S2(b[1], b[2]), S3(b[2])] + Spread(b[3..])
  }

  lemma {:induction false} EncodeIsChars(b: seq<Byte>)
    ensures Encode(b) == Chars(Spread(b))
  {
    if |b| >= 3 {
      EncodeIsChars(b[3..]);
      assert Spread(b)[4..] == Spread(b[3..]);
    }
  }

  lemma {:induction false} PackSpread(b: seq<Byte>)
    ensures Pack(Spread(b)) == Some(b)
  {
    if |b| >= 3 {
      PackSpread(b[3..]);
      PackSpreadGroup(b, Spread(b[3..]));
    } else if |b| == 2 {
      PackTwo(b[0], b[1]);
      assert b == [b[0], b[1]];
    } else if |b| == 1 {
      PackOne(b[0]);
      assert b == [b[0]];
    }
  }

  lemma PackSpreadGroup(b: seq<Byte>, rest: seq<Sextet>)
    requires |b| >= 3 && Spread(b[3..]) == rest && Pack(rest) == Some(b[3..])
    ensures Pack(Spread(b)) == Some(b)
  {
    GroupOfBytes(b[0], b[1], b[2]);
    assert Spread(b)[4..] == rest;
    assert b == [b[0], b[1], b[2]] + b[3..];
  }

  lemma PackOne(x: Byte)
    ensures Pack([S0(x), S1(x, 0)]) == Some([x])
  {
    assert B0(S0(x), S1(x, 0)) == x;
    assert Pack([S0(x), S1(x, 0)]) == Some([B0(S0(x), S1(x, 0))]);
  }

  lemma PackTwo(x: Byte, y: Byte)
    ensures Pack([S0(x), S1(x, y), S2(y, 0)]) == Some([x, y])
  {
    GroupOfBytes(x, y, 0);
  }

  /** The last group leaves no bits over. */
  predicate Exact(v: seq<Sextet>) {
    match |v| % 4
    case 2 => v[|v|-1] % 16 == 0
    case 3 => v[|v|-1] % 4 == 0
    case _ => true
  }

  lemma {:induction false} SpreadPack(v: seq<Sextet>)
    requires Pack(v).Some?
    ensures Spread(Pack(v).value) == v <==> Exact(v)
  {
    if |v| >= 4 {
      SpreadPack(v[4..]);
      SpreadPackGroup(v, Pack(v[4..]).value);
      ExactTail(v);
    } else if |v| == 3 {
      SpreadThree(v);
    } else if |v| == 2 {
      SpreadTwo(v);
    } else {
      SpreadNone(v);
    }
  }

  lemma SpreadPackGroup(v: seq<Sextet>, rest: seq<Byte>)
    requires |v| >= 4 && Pack(v[4..]) == Some(rest)
    ensures Spread(Pack(v).value) == v <==> Spread(rest) == v[4..]
  {
    GroupOfSextets(v[0], v[1], v[2], v[3]);
    var b := Pack(v).value;
    assert b[3..] == rest;
    assert Spread(b) == [v[0], v[1], v[2], v[3]] + Spread(rest);
    assert v == [v[0], v[1], v[2], v[3]] + v[4..];
    Prepend([v[0], v[1], v[2], v[3]], Spread(rest), v[4..]);
  }

  lemma ExactTail(v: seq<Sextet>)
    requires |v| >= 4
    ensures Exact(v) <==> Exact(v[4..])
  {
    assert |v[4..]| % 4 == |v| % 4;
  }

  lemma SpreadNone(v: seq<Sextet>)
    requires |v| < 2 && Pack(v).Some?
    ensures Spread(Pack(v).value) == v && Exact(v)
  {
  }

  lemma SpreadTwo(v: seq<Sextet>)
    requires |v| == 2
    ensures Spread(Pack(v).value) == v <==> Exact(v)
  {
    var a, b := v[0], v[1];
    GroupOfSextets(a, b, 0, 0);
    assert Pack(v).value == [B0(a, b)];
    var s := Spread([B0(a, b)]);
    assert |s| == 2 && s[0] == a && s[1] == S1(B0(a, b), 0);
    assert s == v <==> s[1] == b;
  }

  lemma SpreadThree(v: seq<Sextet>)
    requires |v| == 3
    ensures Spread(Pack(v).value) == v <==> Exact(v)
  {
    var a, b, c := v[0], v[1], v[2];
    GroupOfSextets(a, b, c, 0);
    assert Pack(v).value == [B0(a, b), B1(b, c)];
    var s := Spread([B0(a, b), B1(b, c)]);
    assert |s| == 3 && s[0] == a && s[1] == b && s[2] == S2(B1(b, c), 0);
    assert s == v <==> s[2] == c;
  }

  lemma Prepend<T>(a: seq<T>, b: seq<T>, c: seq<T>)
    ensures a + b == a + c <==> b == c
  {
    assert (a + b)[|a|..] == b && (a + c)[|a|..] == c;
  }

  /** Decoding undoes encoding for every length, and encoded text holds no dot. */
  lemma DecodeEncode(b: seq<Byte>)
    ensures Decode(Encode(b)) == Some(b) && '.' !in Encode(b)
  {
    EncodeIsChars(b);
    CharsBack(Spread(b));
    PackSpread(b);
  }

  lemma {:induction false} SextetsBack(s: string)
    requires Sextets(s).Some?
    ensures Chars(Sextets(s).value) == s
  {
    if s != "" {
      SextetsBack(s[1..]);
      ValueChar(s[0]);
      assert Sextets(s).value[1..] == Sextets(s[1..]).value;
    }
  }

  /** Text that decodes is the encoding of what it decodes to exactly when it holds no line break and
      its last group leaves no bits over. */
  lemma EncodeDecode(s: string)
    requires Decode(s).Some?
    ensures Encode(Decode(s).value) == s <==> Unbroken(s) == s && Exact(Sextets(Unbroken(s)).value)
  {
    var t := Unbroken(s);
    var v := Sextets(t).value;
    var b := Decode(s).value;
    SextetsBack(t);
    SpreadPack(v);
    EncodeIsChars(b);
    CharsBack(Spread(b));
    CharsBack(v);
  }
}
