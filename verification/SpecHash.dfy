/** The text a service's fingerprint is taken of (internal/sandboxd/services.go, specHash), one char
    per byte: it can be read back, so it tells any two valid specs apart. */
module SpecHash {
  import opened Options
  import opened Strings
  import Sandbox

  const NUL := '\0'
  const MAX_ARGS := 64
  const MAX_ARG_LEN := 4096
  const MAX_ENV := 64
  const MAX_ENV_VALUE := 8192

  datatype Spec = Spec(id: string, command: seq<string>, env: map<string, string>, internet: bool)

  predicate Digit(c: char) {
    '0' <= c <= '9'
  }

  predicate IdAt(c: char, k: nat) {
    if k in {8, 13, 18, 23} then c == '-' else Digit(c) || 'a' <= c <= 'f'
  }

  predicate ValidId(id: string) {
    |id| == 36 && forall k | 0 <= k < 36 :: IdAt(id[k], k)
  }

  predicate NameChar(c: char) {
    'A' <= c <= 'Z' || 'a' <= c <= 'z' || c == '_'
  }

  /** serviceEnvName. */
  predicate EnvName(n: string) {
    n != "" && NameChar(n[0]) && forall k | 0 <= k < |n| :: NameChar(n[k]) || Digit(n[k])
  }

  predicate Validate(s: Spec) {
    && ValidId(s.id)
    && s.command != [] && TrimSpace(s.command[0]) != "" && |s.command| <= MAX_ARGS
    && (forall k | 0 <= k < |s.command| :: |s.command[k]| <= MAX_ARG_LEN)
    && |s.env| <= MAX_ENV
    && (forall n | n in s.env :: EnvName(n) && n !in {"PATH", "HOME"} && |s.env[n]| <= MAX_ENV_VALUE)
  }

  predicate HexPart(s: string, n: nat) {
    |s| == n && forall k | 0 <= k < |s| :: s[k] in "0123456789abcdef"
  }

  /** RFC 9562, section 4: eight, three times four, and twelve hexadecimal digits; small letters only here. */
  ghost predicate Uuid(id: string, a: string, b: string, c: string, d: string, e: string) {
    && id == a + "-" + b + "-" + c + "-" + d + "-" + e
    && HexPart(a, 8) && HexPart(b, 4) && HexPart(c, 4) && HexPart(d, 4) && HexPart(e, 12)
  }

  lemma IdExactly(id: string)
    ensures ValidId(id) <==> exists a, b, c, d, e :: Uuid(id, a, b, c, d, e)
  {
    if ValidId(id) { IdParts(id); }
    if a, b, c, d, e :| Uuid(id, a, b, c, d, e) {
      forall k | 0 <= k < 36 ensures |id| == 36 && IdAt(id[k], k) {
        PartsAt(id, a, b, c, d, e, k);
        HexDigit(id[k]);
      }
      PartsAt(id, a, b, c, d, e, 0);
    }
  }

  lemma IdParts(id: string)
    requires ValidId(id)
    ensures exists a, b, c, d, e :: Uuid(id, a, b, c, d, e)
  {
    forall k | 0 <= k < 36 ensures if k in {8, 13, 18, 23} then id[k] == '-' else id[k] in "0123456789abcdef" {
      assert IdAt(id[k], k);
      HexDigit(id[k]);
    }
    var from9, from14, from19 := id[9..], id[14..], id[19..];
    CutAt(id, 8);
    CutAt(from9, 4);
    CutAt(from14, 4);
    CutAt(from19, 4);
    assert from9[5..] == from14 && from14[5..] == from19;
    Dashed(id[..8], from9[..4], from14[..4], from19[..4], from19[5..]);
    assert Uuid(id, id[..8], from9[..4], from14[..4], from19[..4], from19[5..]);
  }

  lemma CutAt(s: string, k: nat)
    requires k < |s| && s[k] == '-'
    ensures s == s[..k] + ("-" + s[k+1..])
  {
  }

  lemma Dashed(a: string, b: string, c: string, d: string, e: string)
    ensures a + ("-" + (b + ("-" + (c + ("-" + (d + ("-" + e))))))) == a + "-" + b + "-" + c + "-" + d + "-" + e
  {
  }

  lemma HexDigit(x: char)
    ensures x in "0123456789abcdef" <==> Digit(x) || 'a' <= x <= 'f'
  {
    var hex := "0123456789abcdef";
    if Digit(x) { assert hex[x as int - '0' as int] == x; }
    if 'a' <= x <= 'f' { assert hex[x as int - 'a' as int + 10] == x; }
  }

  lemma PartsAt(id: string, a: string, b: string, c: string, d: string, e: string, k: nat)
    requires Uuid(id, a, b, c, d, e) && k < 36
    ensures |id| == 36 && (if k in {8, 13, 18, 23} then id[k] == '-' else id[k] in "0123456789abcdef")
  {
    var i := if k < 8 then k else if 9 <= k < 13 then k - 9 else if 14 <= k < 18 then k - 14
             else if 19 <= k < 23 then k - 19 else if k > 23 then k - 24 else 0;
    assert |id| == 36;
    if k < 8 { assert id[k] == a[i]; } else if 8 < k < 13 { assert id[k] == b[i]; }
    else if 13 < k < 18 { assert id[k] == c[i]; } else if 18 < k < 23 { assert id[k] == d[i]; }
    else if k > 23 { assert id[k] == e[i]; }
  }

  /** Exactly the specs that are taken: a uuid; 1 to 64 arguments of at most 4096 bytes, the first not blank; at
      most 64 environment variables, named as such, neither PATH nor HOME, of at most 8192 bytes each. */
  lemma ValidatesExactly(s: Spec)
    ensures Validate(s) <==>
            && (exists a, b, c, d, e :: Uuid(s.id, a, b, c, d, e))
            && 1 <= |s.command| <= 64 && (forall arg | arg in s.command :: |arg| <= 4096)
            && (exists k :: 0 <= k < |s.command[0]| && !Blank(s.command[0][k]))
            && |s.env| <= 64 && "PATH" !in s.env && "HOME" !in s.env
            && forall n | n in s.env :: EnvName(n) && |s.env[n]| <= 8192
  {
    IdExactly(s.id);
    if s.command != [] { SpaceExactly(s.command[0]); }
    forall k | 0 <= k < |s.command| ensures s.command[k] in s.command {}
  }

  // ---------------------------------------------------------------- the text

  /** %d */
  function Decimal(n: nat): string {
    (if n < 10 then "" else Decimal(n / 10)) + [('0' as int + n % 10) as char]
  }

  function Sized(a: string): string {
    Decimal(|a|) + ":" + a
  }

  function Args(command: seq<string>): string {
    if command == [] then "" else Args(command[..|command|-1]) + Sized(command[|command|-1])
  }

  function Entry(n: string, v: string): string {
    [NUL] + n + "=" + Sized(v)
  }

  function Env(names: seq<string>, env: map<string, string>): string
    requires forall k | 0 <= k < |names| :: names[k] in env
  {
    if names == [] then ""
    else Env(names[..|names|-1], env) + Entry(names[|names|-1], env[names[|names|-1]])
  }

  function Flag(b: bool): string {
    if b then "true" else "false"
  }

  /** Bytewise order, as sort.Strings. */
  predicate Less(a: string, b: string) {
    b != "" && (a == "" || a[0] < b[0] || (a[0] == b[0] && Less(a[1..], b[1..])))
  }

  predicate Ascending(names: seq<string>) {
    forall j, k | 0 <= j < k < |names| :: Less(names[j], names[k])
  }

  predicate Lists(names: seq<string>, env: map<string, string>) {
    && (forall k | 0 <= k < |names| :: names[k] in env)
    && (forall n | n in env :: n in names)
  }

  function TextOf(image: string, s: Spec, names: seq<string>): string
    requires Lists(names, s.env)
  {
    image + [NUL] + Flag(s.internet) + [NUL] + Args(s.command) + Env(names, s.env)
  }

  /** The text of a spec: its environment in ascending order. */
  ghost predicate IsText(image: string, s: Spec, text: string) {
    exists names :: Lists(names, s.env) && Ascending(names) && text == TextOf(image, s, names)
  }

  // ---------------------------------------------------------------- reading it back

  /** What stands before the first `c`, and after it. */
  function Until(s: string, c: char): (r: Option<(string, string)>)
    ensures r.Some? ==> s == r.value.0 + [c] + r.value.1
  {
    if s == "" then None
    else if s[0] == c then Some(("", s[1..]))
    else match Until(s[1..], c)
      case None => None
      case Some(p) => Some(([s[0]] + p.0, p.1))
  }

  function Number(s: string): Option<nat> {
    if s == "" then Some(0)
    else if !Digit(s[|s|-1]) then None
    else match Number(s[..|s|-1])
      case None => None
      case Some(n) => Some(10 * n + (s[|s|-1] as int - '0' as int))
  }

  function TakeSized(s: string): (r: Option<(string, string)>)
    ensures r.Some? ==> |r.value.1| < |s|
  {
    match Until(s, ':')
    case None => None
    case Some(p) =>
      match Number(p.0)
      case None => None
      case Some(n) => if n <= |p.1| then Some((p.1[..n], p.1[n..])) else None
  }

  function TakeArgs(s: string): (r: Option<(seq<string>, string)>)
    decreases |s|
  {
    if s == "" || !Digit(s[0]) then Some(([], s))
    else match TakeSized(s)
      case None => None
      case Some(p) =>
        match TakeArgs(p.1)
        case None => None
        case Some(q) => Some(([p.0] + q.0, q.1))
  }

  function TakeEnv(s: string): Option<map<string, string>>
    decreases |s|
  {
    if s == "" then Some(map[])
    else if s[0] != NUL then None
    else match Until(s[1..], '=')
      case None => None
      case Some(name) =>
        match TakeSized(name.1)
        case None => None
        case Some(p) =>
          match TakeEnv(p.1)
          case None => None
          case Some(rest) => Some(rest[name.0 := p.0])
  }

  /** The image and everything of a spec but its id. */
  datatype Recipe = Recipe(image: string, internet: bool, command: seq<string>, env: map<string, string>)

  function Decode(text: string): Option<Recipe> {
    match Until(text, NUL)
    case None => None
    case Some(image) =>
      match Until(image.1, NUL)
      case None => None
      case Some(flag) =>
        match TakeArgs(flag.1)
        case None => None
        case Some(args) =>
          match TakeEnv(args.1)
          case None => None
          case Some(env) =>
            if flag.0 !in {"true", "false"} then None
            else Some(Recipe(image.0, flag.0 == "true", args.0, env))
  }

  lemma {:induction false} UntilFirst(a: string, c: char, rest: string)
    requires c !in a
    ensures Until(a + [c] + rest, c) == Some((a, rest))
  {
    var s := a + [c] + rest;
    if a != "" {
      assert s[1..] == a[1..] + [c] + rest;
      UntilFirst(a[1..], c, rest);
      assert [s[0]] + a[1..] == a;
    }
  }

  lemma {:induction false} NumberOfDecimal(n: nat)
    ensures Number(Decimal(n)) == Some(n)
    ensures Decimal(n) != "" && forall c | c in Decimal(n) :: Digit(c)
  {
    var front, c := if n < 10 then "" else Decimal(n / 10), ('0' as int + n % 10) as char;
    if n >= 10 { NumberOfDecimal(n / 10); }
    assert Decimal(n) == front + [c] && Number(front) == Some(n / 10) && Digit(c);
    NumberPush(front, c);
  }

  /** One digit more. */
  lemma NumberPush(front: string, c: char)
    requires Number(front).Some? && Digit(c)
    ensures Number(front + [c]) == Some(10 * Number(front).value + (c as int - '0' as int))
  {
    var s := front + [c];
    assert |s| == |front| + 1 && s[|s|-1] == c && s[..|s|-1] == front;
  }

  lemma SizedSplits(a: string, rest: string)
    ensures Until(Sized(a) + rest, ':') == Some((Decimal(|a|), a + rest))
    ensures Sized(a) != "" && Digit(Sized(a)[0])
  {
    NumberOfDecimal(|a|);
    assert Sized(a)[0] == Decimal(|a|)[0];
    UntilFirst(Decimal(|a|), ':', a + rest);
    assert Sized(a) + rest == Decimal(|a|) + ":" + (a + rest);
  }

  lemma TakeSizedBack(a: string, rest: string)
    ensures TakeSized(Sized(a) + rest) == Some((a, rest))
    ensures Sized(a) != "" && Digit(Sized(a)[0])
  {
    SizedSplits(a, rest);
    TakeCounted(Sized(a) + rest, a, rest);
  }

  lemma TakeCounted(s: string, a: string, rest: string)
    requires Until(s, ':') == Some((Decimal(|a|), a + rest))
    ensures TakeSized(s) == Some((a, rest))
  {
    NumberOfDecimal(|a|);
    assert (a + rest)[..|a|] == a && (a + rest)[|a|..] == rest;
  }

  lemma {:induction false} ArgsFront(command: seq<string>)
    requires command != []
    ensures Args(command) == Sized(command[0]) + Args(command[1..])
  {
    if |command| > 1 {
      var front := command[..|command|-1];
      ArgsFront(front);
      assert command[1..][..|command|-2] == front[1..];
    }
  }

  lemma {:induction false} TakeArgsBack(command: seq<string>, rest: string)
    requires rest == "" || !Digit(rest[0])
    ensures TakeArgs(Args(command) + rest) == Some((command, rest))
    decreases |command|
  {
    if command == [] {
      assert Args(command) + rest == rest;
    } else {
      ArgsFront(command);
      var more := Args(command[1..]) + rest;
      assert Args(command) + rest == Sized(command[0]) + more;
      TakeSizedBack(command[0], more);
      TakeArgsBack(command[1..], rest);
      assert [command[0]] + command[1..] == command;
    }
  }

  lemma {:induction false} EnvFront(names: seq<string>, env: map<string, string>)
    requires names != [] && forall k | 0 <= k < |names| :: names[k] in env
    ensures Env(names, env) == Entry(names[0], env[names[0]]) + Env(names[1..], env)
  {
    if |names| > 1 {
      var front, last := names[..|names|-1], names[|names|-1];
      EnvFront(front, env);
      assert names[1..][..|names|-2] == front[1..];
      Associate(Entry(names[0], env[names[0]]), Env(front[1..], env), Entry(last, env[last]));
    }
  }

  lemma EntrySplits(n: string, v: string, rest: string)
    requires '=' !in n
    ensures var s := Entry(n, v) + rest;
            s[0] == NUL && Until(s[1..], '=') == Some((n, Sized(v) + rest))
  {
    var s, tail := Entry(n, v) + rest, Sized(v) + rest;
    assert s[1..] == n + "=" + tail;
    UntilFirst(n, '=', tail);
  }

  lemma TakeEnvFirst(n: string, v: string, rest: string, env: map<string, string>)
    requires '=' !in n && TakeEnv(rest) == Some(env)
    ensures TakeEnv(Entry(n, v) + rest) == Some(env[n := v])
  {
    EntrySplits(n, v, rest);
    TakeSizedBack(v, rest);
  }

  lemma {:induction false} TakeEnvBack(names: seq<string>, env: map<string, string>, got: map<string, string>)
    requires forall k | 0 <= k < |names| :: names[k] in env && '=' !in names[k]
    requires got.Keys == (set n | n in names) && forall n | n in got :: n in env && got[n] == env[n]
    ensures TakeEnv(Env(names, env)) == Some(got)
    decreases |names|
  {
    if names == [] {
      assert got == map[];
    } else {
      EnvFront(names, env);
      var rest := map n | n in got && n in names[1..] :: got[n];
      TakeEnvBack(names[1..], env, rest);
      TakeEnvFirst(names[0], env[names[0]], Env(names[1..], env), rest);
      OneMoreName(names, env, got, rest);
    }
  }

  lemma OneMoreName(names: seq<string>, env: map<string, string>, got: map<string, string>, rest: map<string, string>)
    requires names != [] && names[0] in env && got.Keys == (set n | n in names)
    requires forall n | n in got :: n in env && got[n] == env[n]
    requires rest == map n | n in got && n in names[1..] :: got[n]
    ensures got == rest[names[0] := env[names[0]]]
  {
    forall n | n in names ensures n == names[0] || n in names[1..] {}
  }

  /** The text reads back to the image, the internet flag, the arguments and the environment, in
      whatever order the environment was written. */
  lemma DecodeText(image: string, s: Spec, names: seq<string>)
    requires NUL !in image && Validate(s) && Lists(names, s.env)
    ensures Decode(TextOf(image, s, names)) == Some(Recipe(image, s.internet, s.command, s.env))
  {
    forall k | 0 <= k < |names| ensures '=' !in names[k] { assert EnvName(names[k]); }
    var env := Env(names, s.env);
    if names != [] { EnvFront(names, s.env); }
    assert env == "" || env[0] == NUL;
    TakeEnvBack(names, s.env, s.env);
    DecodeParts(image, s.internet, s.command, env);
  }

  lemma DecodeParts(image: string, internet: bool, command: seq<string>, env: string)
    requires NUL !in image && (env == "" || env[0] == NUL) && TakeEnv(env).Some?
    ensures Decode(image + [NUL] + Flag(internet) + [NUL] + Args(command) + env)
            == Some(Recipe(image, internet, command, TakeEnv(env).value))
  {
    TakeArgsBack(command, env);
    var flag, args := Flag(internet), Args(command) + env;
    var tail := flag + [NUL] + args;
    UntilFirst(flag, NUL, args);
    UntilFirst(image, NUL, tail);
    Associate(image + [NUL] + flag + [NUL], Args(command), env);
    Associate(image + [NUL] + flag, [NUL], args);
    Associate(image + [NUL], flag, [NUL] + args);
    Associate(flag, [NUL], args);
  }

  lemma Associate(a: string, b: string, c: string)
    ensures (a + b) + c == a + (b + c)
  {
  }

  // ---------------------------------------------------------------- one text per spec

  lemma {:induction false} LessOrder(a: string, b: string)
    ensures a == b || Less(a, b) || Less(b, a)
    ensures Less(a, b) ==> a != b && !Less(b, a)
  {
    if a != "" && b != "" && a[0] == b[0] {
      LessOrder(a[1..], b[1..]);
      assert a == [a[0]] + a[1..] && b == [b[0]] + b[1..];
    }
  }

  lemma {:induction false} LessTransitive(a: string, b: string, c: string)
    requires Less(a, b) && Less(b, c)
    ensures Less(a, c)
  {
    if a != "" && a[0] == b[0] == c[0] { LessTransitive(a[1..], b[1..], c[1..]); }
  }

  lemma {:induction false} OneAscending(a: seq<string>, b: seq<string>)
    requires Ascending(a) && Ascending(b) && forall n :: n in a <==> n in b
    ensures a == b
  {
    assert b != [] ==> b[0] in a;
    if a != [] {
      assert a[0] in b;
      var j :| 0 <= j < |b| && b[j] == a[0];
      var k :| 0 <= k < |a| && a[k] == b[0];
      if j > 0 && k > 0 { LessOrder(a[0], b[0]); }
      if j > 0 || k > 0 { LessOrder(a[0], b[0]); assert false; }
      forall n ensures n in a[1..] <==> n in b[1..] {
        LessOrder(a[0], a[0]);
        if n in a[1..] { assert n in b && n != a[0]; }
        if n in b[1..] { assert n in a && n != b[0]; }
      }
      OneAscending(a[1..], b[1..]);
    }
  }

  predicate SameService(s: Spec, t: Spec) {
    s.command == t.command && s.env == t.env && s.internet == t.internet
  }

  /** The part of a spec that its text holds. */
  function RecipeOf(image: string, s: Spec): Recipe {
    Recipe(image, s.internet, s.command, s.env)
  }

  lemma TextDecodes(image: string, s: Spec, text: string)
    requires NUL !in image && Validate(s) && IsText(image, s, text)
    ensures Decode(text) == Some(RecipeOf(image, s))
  {
    var names :| Lists(names, s.env) && Ascending(names) && text == TextOf(image, s, names);
    DecodeText(image, s, names);
  }

  /** A recipe leaves no choice of text. */
  lemma OneText(image: string, s: Spec, text: string, s': Spec, text': string)
    requires SameService(s, s') && IsText(image, s, text) && IsText(image, s', text')
    ensures text == text'
  {
    var names :| Lists(names, s.env) && Ascending(names) && text == TextOf(image, s, names);
    var names' :| Lists(names', s'.env) && Ascending(names') && text' == TextOf(image, s', names');
    OneAscending(names, names');
  }

  /** Valid specs have the same text exactly when image, arguments, environment and internet flag are the same. */
  lemma TextTellsSpecs(image: string, s: Spec, text: string, image': string, s': Spec, text': string)
    requires NUL !in image && NUL !in image' && Validate(s) && Validate(s')
    requires IsText(image, s, text) && IsText(image', s', text')
    ensures text == text' <==> image == image' && SameService(s, s')
  {
    TextDecodes(image, s, text);
    TextDecodes(image', s', text');
    if image == image' && SameService(s, s') { OneText(image, s, text, s', text'); }
  }

  /** Over all interleavings: the container EnsureService ends with, if some instance built it, was
      built from the same image and an equal spec. */
  lemma KeptOnlyForEqualSpec(hash: string -> string, es: seq<Sandbox.Event>, w: Sandbox.State, p: nat,
                             image: string, s: Spec, image': string, s': Spec, text: string, built: string)
    requires Sandbox.CollisionFree(hash) && Sandbox.Run(hash, Sandbox.NO_ONE, es) == Some(w)
    requires p in w.procs && w.procs[p].job.Service? && w.procs[p].job.text == text
             && (w.procs[p].pc.Kept? || w.procs[p].pc.Reported?)
    requires w.procs[p].pc.id in w.d.born ==> w.d.born[w.procs[p].pc.id].made == Some(built)
    requires NUL !in image && NUL !in image' && Validate(s) && Validate(s')
    requires IsText(image, s, text) && IsText(image', s', built)
    ensures image == image' && SameService(s, s')
  {
    Sandbox.KeptOnlyForEqualText(hash, es, w, p);
    TextTellsSpecs(image, s, text, image', s', built);
  }

  // ---------------------------------------------------------------- building it

  /** Insertion into an ascending list. */
  function Insert(n: string, names: seq<string>): seq<string> {
    if names == [] || Less(n, names[0]) then [n] + names else [names[0]] + Insert(n, names[1..])
  }

  lemma {:induction false} InsertKeeps(n: string, names: seq<string>)
    requires Ascending(names) && n !in names
    ensures Ascending(Insert(n, names)) && forall m :: m in Insert(n, names) <==> m == n || m in names
  {
    if names != [] {
      if Less(n, names[0]) {
        forall k | 0 < k < |names| ensures Less(n, names[k]) { LessTransitive(n, names[0], names[k]); }
      } else {
        LessOrder(n, names[0]);
        var rest := Insert(n, names[1..]);
        InsertKeeps(n, names[1..]);
        forall k | 0 <= k < |rest| ensures Less(names[0], rest[k]) { assert rest[k] in rest; }
      }
    }
  }

  /** specHash up to the digest. */
  method WriteText(image: string, s: Spec) returns (text: string)
    ensures IsText(image, s, text)
  {
    text := image + [NUL] + Flag(s.internet) + [NUL];
    ghost var head := text;
    for k := 0 to |s.command|
      invariant text == head + Args(s.command[..k])
    {
      ArgsNext(s.command, k);
      Associate(head, Args(s.command[..k]), Sized(s.command[k]));
      text := text + Sized(s.command[k]);
    }
    assert s.command[..|s.command|] == s.command;
    var names := SortedNames(s.env);
    head := text;
    for k := 0 to |names|
      invariant text == head + Env(names[..k], s.env)
    {
      EnvNext(names, s.env, k);
      Associate(head, Env(names[..k], s.env), Entry(names[k], s.env[names[k]]));
      text := text + Entry(names[k], s.env[names[k]]);
    }
    assert names[..|names|] == names;
    TextIs(image, s, names, text);
  }

  lemma TextIs(image: string, s: Spec, names: seq<string>, text: string)
    requires Lists(names, s.env) && Ascending(names)
    requires text == image + [NUL] + Flag(s.internet) + [NUL] + Args(s.command) + Env(names, s.env)
    ensures IsText(image, s, text)
  {
    assert text == TextOf(image, s, names);
  }

  lemma ArgsNext(command: seq<string>, k: nat)
    requires k < |command|
    ensures Args(command[..k+1]) == Args(command[..k]) + Sized(command[k])
  {
    assert command[..k+1][..k] == command[..k];
  }

  lemma EnvNext(names: seq<string>, env: map<string, string>, k: nat)
    requires k < |names| && forall j | 0 <= j < |names| :: names[j] in env
    ensures Env(names[..k+1], env) == Env(names[..k], env) + Entry(names[k], env[names[k]])
  {
    assert names[..k+1][..k] == names[..k];
  }

  method SortedNames(env: map<string, string>) returns (names: seq<string>)
    ensures Lists(names, env) && Ascending(names)
  {
    names := [];
    var left := env.Keys;
    while left != {}
      invariant Ascending(names) && left <= env.Keys
      invariant forall n :: n in names <==> n in env && n !in left
      decreases |left|
    {
      var n :| n in left;
      InsertKeeps(n, names);
      names, left := Insert(n, names), left - {n};
    }
  }
}
