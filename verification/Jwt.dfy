/** Session tokens (internal/brain/auth/jwt.go): the compact form of RFC 7515, section 7.1, signed with
    Ed25519 alone or with an HMAC tag beside it.  JSON and the primitives are functions with laws. */
module Jwt {
  import opened Options
  import opened Strings
  import opened Base64

  const ALG_EDDSA := "EdDSA"
  const ALG_PQ := "Ed25519-PQ"
  const SIGNATURE := 64
  const TAG := 32

  type Bytes = seq<Byte>

  datatype Header = Header(alg: string, typ: string)

  datatype Claims = Claims(subject: string, username: string, email: string, role: string,
                           expiresAt: int, issuedAt: int, issuer: string)

  /** An absent key is None, an absent quantum key is []. */
  datatype KeyPair = KeyPair(privateKey: Option<Bytes>, publicKey: Option<Bytes>, pqKey: Bytes)

  datatype Error = NoKeyPair | NoKey | Unsupported | Invalid | Expired

  datatype Answer<+T> = Ok(value: T) | Err(error: Error)

  /** JSON of headers and claims, Ed25519 and HMAC-SHA256. */
  datatype Lib = Lib(
    writeHeader: Header -> Bytes, readHeader: Bytes -> Option<Header>,
    writeClaims: Claims -> Bytes, readClaims: Bytes -> Option<Claims>,
    sign: (Bytes, string) -> Bytes, verify: (Bytes, string, Bytes) -> bool,
    mac: (Bytes, string, Bytes) -> Bytes)

  ghost predicate Lawful(lib: Lib) {
    && (forall h :: lib.readHeader(lib.writeHeader(h)) == Some(h))
    && (forall c :: lib.readClaims(lib.writeClaims(c)) == Some(c))
    && (forall k, m :: |lib.sign(k, m)| == SIGNATURE)
    && (forall k, m, s :: |lib.mac(k, m, s)| == TAG)
  }

  /** `pub` checks what `priv` signs. */
  ghost predicate Matching(lib: Lib, priv: Bytes, pub: Bytes) {
    forall m :: lib.verify(pub, m, lib.sign(priv, m))
  }

  /** The claims as they are signed: issue time and issuer filled in. */
  function Filled(c: Claims, now: int): Claims {
    c.(issuedAt := if c.issuedAt == 0 then now else c.issuedAt,
       issuer := if c.issuer == "" then "timothy" else c.issuer)
  }

  function SigningInput(lib: Lib, c: Claims, alg: string): string {
    Encode(lib.writeHeader(Header(alg, "JWT"))) + "." + Encode(lib.writeClaims(c))
  }

  /** SignWithAlg at time `now`. */
  function SignWithAlg(lib: Lib, claims: Claims, kp: Option<KeyPair>, alg: string, now: int): Answer<string> {
    match kp
    case None => Err(NoKeyPair)
    case Some(keys) =>
      var input := SigningInput(lib, Filled(claims, now), alg);
      if alg == ALG_EDDSA then
        match keys.privateKey
        case None => Err(NoKey)
        case Some(priv) => Ok(input + "." + Encode(lib.sign(priv, input)))
      else if alg == ALG_PQ then
        match keys.privateKey
        case None => Err(NoKey)
        case Some(priv) =>
          if keys.pqKey == [] then Err(NoKey)
          else var sig := lib.sign(priv, input);
            Ok(input + "." + Encode(sig + lib.mac(keys.pqKey, input, sig)))
      else Err(Unsupported)
  }

  /** KeyPair.Sign: with a quantum key the composite algorithm, else Ed25519 alone. */
  function Sign(lib: Lib, claims: Claims, kp: Option<KeyPair>, now: int): Answer<string> {
    SignWithAlg(lib, claims, kp, AlgFor(kp), now)
  }

  function AlgFor(kp: Option<KeyPair>): string {
    if kp.Some? && kp.value.pqKey != [] then ALG_PQ else ALG_EDDSA
  }

  /** The signature check for the algorithm the header names. */
  function CheckSignature(lib: Lib, keys: KeyPair, alg: string, input: string, sig: Bytes): Option<Error> {
    if alg == ALG_EDDSA then
      if keys.publicKey.None? then Some(NoKey)
      else if |sig| != SIGNATURE then Some(Invalid)
      else if !lib.verify(keys.publicKey.value, input, sig) then Some(Invalid)
      else None
    else if alg == ALG_PQ then
      if |sig| != SIGNATURE + TAG then Some(Invalid)
      else if keys.publicKey.None? then Some(NoKey)
      else if keys.pqKey == [] then Some(Invalid)
      else if !lib.verify(keys.publicKey.value, input, sig[..SIGNATURE]) then Some(Invalid)
      else if sig[SIGNATURE..] != lib.mac(keys.pqKey, input, sig[..SIGNATURE]) then Some(Invalid)
      else None
    else Some(Unsupported)
  }

  /** KeyPair.Verify at time `now`. */
  function Verify(lib: Lib, kp: Option<KeyPair>, token: string, now: int): Answer<Claims> {
    if kp.None? then Err(NoKeyPair)
    else var parts := Split(token, '.');
      if |parts| != 3 then Err(Invalid)
      else match (Decode(parts[0]), Decode(parts[1]), Decode(parts[2]))
        case (Some(headerJSON), Some(claimsJSON), Some(sig)) =>
          (match lib.readHeader(headerJSON)
           case None => Err(Invalid)
           case Some(h) =>
             if h.typ != "JWT" then Err(Invalid)
             else match CheckSignature(lib, kp.value, h.alg, parts[0] + "." + parts[1], sig)
               case Some(e) => Err(e)
               case None =>
                 match lib.readClaims(claimsJSON)
                 case None => Err(Invalid)
                 case Some(c) => if c.expiresAt > 0 && now > c.expiresAt then Err(Expired) else Ok(c))
        case _ => Err(Invalid)
  }

  // ---------------------------------------------------------------- the compact form

  lemma ThreeParts(a: string, b: string, c: string)
    requires '.' !in a && '.' !in b && '.' !in c
    ensures Split(a + "." + b + "." + c, '.') == [a, b, c]
  {
    SplitAt(a + "." + b, c, '.');
    SplitAt(a, b, '.');
    SplitName(a, '.');
    SplitName(b, '.');
    SplitName(c, '.');
  }

  /** RFC 7515, section 7.1: three parts and two dots. */
  ghost predicate Compact(token: string, h: string, b: string, e: string) {
    '.' !in h && '.' !in b && '.' !in e && token == h + "." + b + "." + e
  }

  lemma CompactExactly(token: string, h: string, b: string, e: string)
    ensures Compact(token, h, b, e) <==> Split(token, '.') == [h, b, e]
  {
    if Compact(token, h, b, e) {
      ThreeParts(h, b, e);
    }
    if Split(token, '.') == [h, b, e] {
      SplitIsFree(token, '.');
      assert Free([h, b, e], '.') && h == [h, b, e][0] && b == [h, b, e][1] && e == [h, b, e][2];
      JoinSplit(token, '.');
      assert [h, b, e][1..] == [b, e] && [b, e][1..] == [e];
      assert Join([h, b, e], '.') == h + "." + Join([b, e], '.');
      assert h + "." + (b + "." + e) == h + "." + b + "." + e;
    }
  }

  lemma TwoPartsAreUnique(a: string, b: string, a': string, b': string)
    requires '.' !in a && '.' !in b && '.' !in a' && '.' !in b' && a + "." + b == a' + "." + b'
    ensures a == a' && b == b'
  {
    SplitAt(a, b, '.');
    SplitAt(a', b', '.');
    SplitName(a, '.');
    SplitName(b, '.');
    SplitName(a', '.');
    SplitName(b', '.');
    var parts := Split(a + "." + b, '.');
    assert parts[0] == a && parts[1] == b;
    assert Split(a' + "." + b', '.') == parts;
  }

  lemma Unpack(lib: Lib, c: Claims, alg: string, sig: Bytes)
    requires Lawful(lib)
    ensures var parts := Split(SigningInput(lib, c, alg) + "." + Encode(sig), '.');
            && |parts| == 3 && Decode(parts[2]) == Some(sig)
            && parts[0] + "." + parts[1] == SigningInput(lib, c, alg)
            && Decode(parts[0]) == Some(lib.writeHeader(Header(alg, "JWT")))
            && Decode(parts[1]) == Some(lib.writeClaims(c))
  {
    var h, b := lib.writeHeader(Header(alg, "JWT")), lib.writeClaims(c);
    DecodeEncode(h);
    DecodeEncode(b);
    DecodeEncode(sig);
    ThreeParts(Encode(h), Encode(b), Encode(sig));
  }

  lemma SignedChecks(lib: Lib, keys: KeyPair, priv: Bytes, alg: string, input: string)
    requires Lawful(lib) && keys.publicKey.Some? && Matching(lib, priv, keys.publicKey.value)
    requires alg == ALG_EDDSA || (alg == ALG_PQ && keys.pqKey != [])
    ensures var sig := lib.sign(priv, input);
            CheckSignature(lib, keys, alg, input,
                           if alg == ALG_PQ then sig + lib.mac(keys.pqKey, input, sig) else sig) == None
  {
    var sig := lib.sign(priv, input);
    var tag := lib.mac(keys.pqKey, input, sig);
    assert (sig + tag)[..SIGNATURE] == sig && (sig + tag)[SIGNATURE..] == tag;
  }

  /** For every claims value, algorithm and matching pair of keys, verifying a signed token gives every claim
      back, with issue time and issuer filled in where they were not given, unless they have expired. */
  lemma VerifySigned(lib: Lib, c: Claims, signer: KeyPair, alg: string, issued: int, token: string, keys: KeyPair,
                     now: int)
    requires Lawful(lib) && SignWithAlg(lib, c, Some(signer), alg, issued) == Ok(token)
    requires keys.publicKey.Some? && signer.privateKey.Some?
    requires Matching(lib, signer.privateKey.value, keys.publicKey.value)
    requires alg == ALG_PQ ==> keys.pqKey == signer.pqKey
    ensures Verify(lib, Some(keys), token, now)
            == if c.expiresAt > 0 && now > c.expiresAt then Err(Expired)
               else Ok(Claims(c.subject, c.username, c.email, c.role, c.expiresAt,
                              if c.issuedAt != 0 then c.issuedAt else issued,
                              if c.issuer != "" then c.issuer else "timothy"))
  {
    var filled := Filled(c, issued);
    var input := SigningInput(lib, filled, alg);
    var priv := signer.privateKey.value;
    var sig := lib.sign(priv, input);
    var whole := if alg == ALG_PQ then sig + lib.mac(signer.pqKey, input, sig) else sig;
    Unpack(lib, filled, alg, whole);
    SignedChecks(lib, keys, priv, alg, input);
  }

  /** Signing succeeds exactly with one of the two algorithms and its keys; Sign needs only a private key. */
  lemma SignsExactly(lib: Lib, c: Claims, kp: Option<KeyPair>, alg: string, now: int)
    ensures SignWithAlg(lib, c, kp, alg, now).Ok? <==>
            kp.Some? && kp.value.privateKey.Some? && (alg == ALG_EDDSA || (alg == ALG_PQ && kp.value.pqKey != []))
    ensures Sign(lib, c, kp, now).Ok? <==> kp.Some? && kp.value.privateKey.Some?
  {
    assert ALG_EDDSA[2] != ALG_PQ[2];
  }

  /** Sign makes a composite token exactly with a quantum key: 64 bytes that the private key signed, and then
      the 32 bytes of a tag over them and what they sign. */
  lemma SignPicks(lib: Lib, c: Claims, keys: KeyPair, now: int, token: string)
    requires Lawful(lib) && Sign(lib, c, Some(keys), now) == Ok(token)
    ensures AlgNamed(lib, token) == Some(if keys.pqKey == [] then "EdDSA" else "Ed25519-PQ")
    ensures |Split(token, '.')| == 3 && keys.privateKey.Some?
    ensures match Decode(Split(token, '.')[2])
            case None => false
            case Some(sig) =>
              && |sig| == (if keys.pqKey == [] then 64 else 96)
              && sig[..64] == lib.sign(keys.privateKey.value, InputOf(token))
              && (keys.pqKey != [] ==> sig[64..] == lib.mac(keys.pqKey, InputOf(token), sig[..64]))
  {
    SignsExactly(lib, c, Some(keys), AlgFor(Some(keys)), now);
    var alg, filled := AlgFor(Some(keys)), Filled(c, now);
    var input := SigningInput(lib, filled, alg);
    var sig := lib.sign(keys.privateKey.value, input);
    var whole := if keys.pqKey == [] then sig else sig + lib.mac(keys.pqKey, input, sig);
    assert whole[..64] == sig && (keys.pqKey != [] ==> whole[64..] == lib.mac(keys.pqKey, input, sig));
    Unpack(lib, filled, alg, whole);
  }

  /** What Verify takes: a header of type JWT and claims not expired, under a signature of the named
      algorithm's length that passes the check with the public key, and for a composite one the tag's too. */
  ghost predicate Passes(lib: Lib, keys: KeyPair, h: string, b: string, e: string, now: int, c: Claims) {
    && Decode(h).Some? && Decode(b).Some? && Decode(e).Some? && keys.publicKey.Some?
    && lib.readClaims(Decode(b).value) == Some(c) && (c.expiresAt <= 0 || now <= c.expiresAt)
    && var input, sig := h + "." + b, Decode(e).value;
      if lib.readHeader(Decode(h).value) == Some(Header("EdDSA", "JWT")) then
        |sig| == 64 && lib.verify(keys.publicKey.value, input, sig)
      else
        && lib.readHeader(Decode(h).value) == Some(Header("Ed25519-PQ", "JWT"))
        && |sig| == 96 && lib.verify(keys.publicKey.value, input, sig[..64])
        && keys.pqKey != [] && sig[64..] == lib.mac(keys.pqKey, input, sig[..64])
  }

  /** A token is accepted exactly when it is three parts, without dots, that pass. */
  lemma VerifiesExactly(lib: Lib, keys: KeyPair, token: string, now: int, c: Claims)
    ensures Verify(lib, Some(keys), token, now) == Ok(c) <==>
            exists h, b, e :: Compact(token, h, b, e) && Passes(lib, keys, h, b, e, now, c)
  {
    var parts := Split(token, '.');
    forall h, b, e | Compact(token, h, b, e) ensures parts == [h, b, e] {
      CompactExactly(token, h, b, e);
    }
    if |parts| == 3 {
      CompactExactly(token, parts[0], parts[1], parts[2]);
      PassesExactly(lib, keys, token, now, c);
    }
  }

  lemma PassesExactly(lib: Lib, keys: KeyPair, token: string, now: int, c: Claims)
    requires |Split(token, '.')| == 3
    ensures var parts := Split(token, '.');
            Verify(lib, Some(keys), token, now) == Ok(c)
            <==> Passes(lib, keys, parts[0], parts[1], parts[2], now, c)
  {
  }

  // ---------------------------------------------------------------- only issued claims are accepted

  /** A token somebody was given: claims, algorithm, time. */
  datatype Issue = Issue(claims: Claims, alg: string, at: int)

  ghost predicate Issued(lib: Lib, issues: set<Issue>, input: string) {
    exists i | i in issues :: input == SigningInput(lib, Filled(i.claims, i.at), i.alg)
  }

  /** Signatures at hand that pass the Ed25519 check are over issued input. */
  ghost predicate Ed25519Holds(lib: Lib, pub: Bytes, issues: set<Issue>, known: Bytes -> bool) {
    forall m, sig | known(sig) && |sig| >= SIGNATURE && lib.verify(pub, m, sig[..SIGNATURE]) :: Issued(lib, issues, m)
  }

  /** Tags at hand that match are over issued input. */
  ghost predicate MacHolds(lib: Lib, key: Bytes, issues: set<Issue>, known: Bytes -> bool) {
    forall m, sig | known(sig) && |sig| == SIGNATURE + TAG && sig[SIGNATURE..] == lib.mac(key, m, sig[..SIGNATURE]) ::
      Issued(lib, issues, m)
  }

  function AlgNamed(lib: Lib, token: string): Option<string> {
    match Decode(Split(token, '.')[0])
    case None => None
    case Some(json) => match lib.readHeader(json) case None => None case Some(h) => Some(h.alg)
  }

  /** The signature the token presents is one at hand. */
  ghost predicate Presents(token: string, known: Bytes -> bool) {
    forall sig | |Split(token, '.')| == 3 && Decode(Split(token, '.')[2]) == Some(sig) :: known(sig)
  }

  /** While Ed25519 holds every accepted token carries issued claims, unexpired, under the algorithm
      they were issued with; a composite token does so as long as either primitive holds. */
  lemma AcceptedWasIssued(lib: Lib, keys: KeyPair, token: string, now: int, c: Claims, issues: set<Issue>,
                          known: Bytes -> bool)
    requires Lawful(lib) && Verify(lib, Some(keys), token, now) == Ok(c) && Presents(token, known)
    requires keys.publicKey.Some? ==>
               || Ed25519Holds(lib, keys.publicKey.value, issues, known)
               || (AlgNamed(lib, token) == Some(ALG_PQ) && MacHolds(lib, keys.pqKey, issues, known))
    ensures exists i | i in issues :: c == Filled(i.claims, i.at) && AlgNamed(lib, token) == Some(i.alg)
    ensures c.expiresAt <= 0 || now <= c.expiresAt
  {
    var parts := Split(token, '.');
    var input := parts[0] + "." + parts[1];
    var sig := Decode(parts[2]).value;
    var alg := lib.readHeader(Decode(parts[0]).value).value.alg;
    assert known(sig);
    assert CheckSignature(lib, keys, alg, input, sig) == None;
    assert |sig| == SIGNATURE ==> sig[..SIGNATURE] == sig;
    assert Issued(lib, issues, input);
    var i :| i in issues && input == SigningInput(lib, Filled(i.claims, i.at), i.alg);
    var h, b := lib.writeHeader(Header(i.alg, "JWT")), lib.writeClaims(Filled(i.claims, i.at));
    DecodeEncode(h);
    DecodeEncode(b);
    SplitIsFree(token, '.');
    TwoPartsAreUnique(parts[0], parts[1], Encode(h), Encode(b));
  }

  // ---------------------------------------------------------------- when only the tag can be relied on

  /** The signed part of a token. */
  function InputOf(token: string): string
    requires |Split(token, '.')| == 3
  {
    Split(token, '.')[0] + "." + Split(token, '.')[1]
  }

  /** `m` is the signed part of a classical token that would be read and is not expired. */
  ghost predicate Classical(lib: Lib, m: string, now: int, c: Claims) {
    exists h, b ::
      && '.' !in h && '.' !in b && m == h + "." + b && Decode(h).Some? && Decode(b).Some?
      && lib.readHeader(Decode(h).value) == Some(Header(ALG_EDDSA, "JWT"))
      && lib.readClaims(Decode(b).value) == Some(c)
      && (c.expiresAt <= 0 || now <= c.expiresAt)
  }

  /** A key pair with a quantum key still accepts classical tokens: any 64-byte signature that passes the
      Ed25519 check over a classical input is accepted, whatever the quantum key. */
  lemma ClassicalIsAccepted(lib: Lib, keys: KeyPair, m: string, sig: Bytes, now: int, c: Claims)
    requires Classical(lib, m, now, c) && keys.publicKey.Some?
    requires |sig| == SIGNATURE && lib.verify(keys.publicKey.value, m, sig)
    ensures |Split(m + "." + Encode(sig), '.')| == 3 && InputOf(m + "." + Encode(sig)) == m
    ensures Verify(lib, Some(keys), m + "." + Encode(sig), now) == Ok(c)
  {
    var h, b :|
      && '.' !in h && '.' !in b && m == h + "." + b && Decode(h).Some? && Decode(b).Some?
      && lib.readHeader(Decode(h).value) == Some(Header(ALG_EDDSA, "JWT"))
      && lib.readClaims(Decode(b).value) == Some(c)
      && (c.expiresAt <= 0 || now <= c.expiresAt);
    DecodeEncode(sig);
    ThreeParts(h, b, Encode(sig));
    PartsAreAccepted(lib, keys, m + "." + Encode(sig), h, b, Encode(sig), sig, now, c);
  }

  lemma PartsAreAccepted(lib: Lib, keys: KeyPair, token: string, h: string, b: string, e: string, sig: Bytes, now: int,
                         c: Claims)
    requires Split(token, '.') == [h, b, e] && Decode(h).Some? && Decode(b).Some? && Decode(e) == Some(sig)
    requires lib.readHeader(Decode(h).value) == Some(Header(ALG_EDDSA, "JWT"))
    requires lib.readClaims(Decode(b).value) == Some(c) && (c.expiresAt <= 0 || now <= c.expiresAt)
    requires keys.publicKey.Some? && |sig| == SIGNATURE && lib.verify(keys.publicKey.value, h + "." + b, sig)
    ensures Verify(lib, Some(keys), token, now) == Ok(c)
  {
    assert CheckSignature(lib, keys, ALG_EDDSA, h + "." + b, sig) == None;
  }

  /** Every token accepted with the signatures at hand was issued. */
  ghost predicate OnlyIssued(lib: Lib, keys: KeyPair, now: int, issues: set<Issue>, known: Bytes -> bool) {
    forall token | Verify(lib, Some(keys), token, now).Ok? && |Split(token, '.')| == 3 && Presents(token, known) ::
      Issued(lib, issues, InputOf(token))
  }

  /** No signature at hand passes the Ed25519 check over a classical input that was not issued. */
  ghost predicate NoDowngrade(lib: Lib, pub: Bytes, now: int, issues: set<Issue>, known: Bytes -> bool) {
    forall m, sig, c | known(sig) && |sig| == SIGNATURE && Classical(lib, m, now, c) && lib.verify(pub, m, sig) ::
      Issued(lib, issues, m)
  }

  /** With nothing but the tag to rely on, every accepted token was issued if and only if no signature at
      hand passes for an unissued classical token: what the tag protects is the composite tokens alone. */
  lemma TagAloneExactly(lib: Lib, keys: KeyPair, now: int, issues: set<Issue>, known: Bytes -> bool)
    requires Lawful(lib) && keys.publicKey.Some? && MacHolds(lib, keys.pqKey, issues, known)
    ensures OnlyIssued(lib, keys, now, issues, known) <==> NoDowngrade(lib, keys.publicKey.value, now, issues, known)
  {
    var pub := keys.publicKey.value;
    if OnlyIssued(lib, keys, now, issues, known) {
      forall m, sig, c | known(sig) && |sig| == SIGNATURE && Classical(lib, m, now, c) && lib.verify(pub, m, sig)
        ensures Issued(lib, issues, m)
      {
        ClassicalWasIssued(lib, keys, m, sig, now, c, issues, known);
      }
    }
    if NoDowngrade(lib, pub, now, issues, known) {
      forall token | Verify(lib, Some(keys), token, now).Ok? && |Split(token, '.')| == 3 && Presents(token, known)
        ensures Issued(lib, issues, InputOf(token))
      {
        AcceptedInput(lib, keys, token, now, issues, known);
      }
    }
  }

  lemma ClassicalWasIssued(lib: Lib, keys: KeyPair, m: string, sig: Bytes, now: int, c: Claims, issues: set<Issue>,
                           known: Bytes -> bool)
    requires OnlyIssued(lib, keys, now, issues, known) && Classical(lib, m, now, c) && keys.publicKey.Some?
    requires known(sig) && |sig| == SIGNATURE && lib.verify(keys.publicKey.value, m, sig)
    ensures Issued(lib, issues, m)
  {
    ClassicalIsAccepted(lib, keys, m, sig, now, c);
    PresentsItsOwn(m, sig, known);
    AcceptedIsIssued(lib, keys, m + "." + Encode(sig), now, issues, known);
  }

  lemma AcceptedIsIssued(lib: Lib, keys: KeyPair, token: string, now: int, issues: set<Issue>, known: Bytes -> bool)
    requires OnlyIssued(lib, keys, now, issues, known) && Verify(lib, Some(keys), token, now).Ok?
    requires |Split(token, '.')| == 3 && Presents(token, known)
    ensures Issued(lib, issues, InputOf(token))
  {
  }

  /** The failing family in full: whatever claims, unexpired, and whatever quantum key. */
  lemma UnissuedIsAccepted(lib: Lib, keys: KeyPair, c: Claims, sig: Bytes, now: int)
    requires Lawful(lib) && keys.publicKey.Some? && (c.expiresAt <= 0 || now <= c.expiresAt)
    requires |sig| == SIGNATURE && lib.verify(keys.publicKey.value, SigningInput(lib, c, ALG_EDDSA), sig)
    ensures Verify(lib, Some(keys), SigningInput(lib, c, ALG_EDDSA) + "." + Encode(sig), now) == Ok(c)
  {
    InputIsClassical(lib, c, now);
    ClassicalIsAccepted(lib, keys, SigningInput(lib, c, ALG_EDDSA), sig, now, c);
  }

  lemma InputIsClassical(lib: Lib, c: Claims, now: int)
    requires Lawful(lib) && (c.expiresAt <= 0 || now <= c.expiresAt)
    ensures Classical(lib, SigningInput(lib, c, ALG_EDDSA), now, c)
  {
    var h, b := Encode(lib.writeHeader(Header(ALG_EDDSA, "JWT"))), Encode(lib.writeClaims(c));
    DecodeEncode(lib.writeHeader(Header(ALG_EDDSA, "JWT")));
    DecodeEncode(lib.writeClaims(c));
    assert SigningInput(lib, c, ALG_EDDSA) == h + "." + b;
  }

  lemma PresentsItsOwn(m: string, sig: Bytes, known: Bytes -> bool)
    requires known(sig) && |Split(m + "." + Encode(sig), '.')| == 3
    ensures Presents(m + "." + Encode(sig), known)
  {
    var token := m + "." + Encode(sig);
    DecodeEncode(sig);
    SplitAt(m, Encode(sig), '.');
    SplitName(Encode(sig), '.');
    assert Split(token, '.')[2] == Encode(sig);
  }

  lemma AcceptedInput(lib: Lib, keys: KeyPair, token: string, now: int, issues: set<Issue>, known: Bytes -> bool)
    requires keys.publicKey.Some? && MacHolds(lib, keys.pqKey, issues, known)
    requires NoDowngrade(lib, keys.publicKey.value, now, issues, known)
    requires Verify(lib, Some(keys), token, now).Ok? && |Split(token, '.')| == 3 && Presents(token, known)
    ensures Issued(lib, issues, InputOf(token))
  {
    var parts := Split(token, '.');
    var input, sig := InputOf(token), Decode(parts[2]).value;
    var alg := lib.readHeader(Decode(parts[0]).value).value.alg;
    assert known(sig);
    assert CheckSignature(lib, keys, alg, input, sig) == None;
    if alg == ALG_EDDSA {
      SplitIsFree(token, '.');
      assert lib.readHeader(Decode(parts[0]).value) == Some(Header(ALG_EDDSA, "JWT"));
      assert Classical(lib, input, now, Verify(lib, Some(keys), token, now).value);
    }
  }
}
