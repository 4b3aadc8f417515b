/** What Set, Migrate and Delete have done once every call they make has worked, in the table and in the external
    systems, and what pointers and logins mean (internal/secretstore). */
module SecretFinishes {
  import opened Options
  import opened SecretStore
  import opened SecretMoves

  /** Every call works. */
  predicate AllUp(ups: seq<bool>) {
    forall i | 0 <= i < |ups| :: ups[i]
  }

  /** The object this store keeps for a ref. */
  lemma OwnNameIs(w: World, b: Backend, ref: string)
    ensures OwnName(w, b, ref) == w.named(b, "timothy/" + ref)
  {
    assert ("timothy/" + ref)[0] == 't';
  }

  // ---------------------------------------------------------------- Delete

  /** What a whole Delete leaves of the external systems: the copy under "timothy/" that the row pointed at is gone,
      when a login leads to it; nothing else has changed. */
  function ExtWithout(w: World, p: Plain, ref: string): External {
    if ref in p.rows && p.rows[ref].Points? && SplitRef(p.rows[ref].backendRef, "").0 == "timothy/" + ref then
      match Login(w, p, p.rows[ref].backend)
      case Some(site) => p.ext - {Place(site, w.named(p.rows[ref].backend, "timothy/" + ref))}
      case None => p.ext
    else p.ext
  }

  lemma AwayExt(w: World, p: Plain, b: Backend, ref: string)
    ensures var q := ApplyPlain(p, Away(w, p, b, ref));
            && q.rows == p.rows && q.cfg == p.cfg
            && q.ext == match Login(w, p, b)
                        case Some(site) => p.ext - {Place(site, w.named(b, "timothy/" + ref))}
                        case None => p.ext
  {
    OwnNameIs(w, b, ref);
  }

  /** A Delete whose calls all work is refused exactly for the refs backends log in with, and else succeeds: the row is
      gone, and with it, from where it was kept, the copy this store had made. */
  lemma DeleteFinishes(w: World, p: Plain, ref: string, ups: seq<bool>)
    requires AllUp(ups) && |ups| >= 5
    ensures var (q, op) := OpRun(w, p, DeleteOp(ref), ups);
            if ref in BootstrapRefs(p.cfg) then q == p && op == Finished(false)
            else op == Finished(true) && q.rows == p.rows - {ref} && q.cfg == p.cfg && q.ext == ExtWithout(w, p, ref)
  {
    StepOf(w, p, DeleteOp(ref), ups, p, DeleteCheck(ref, VaultRefs(p.cfg)));
    if ref in BootstrapRefs(p.cfg) {
      StepOf(w, p, DeleteCheck(ref, VaultRefs(p.cfg)), ups[1..], p, Finished(false));
    } else {
      StepOf(w, p, DeleteCheck(ref, VaultRefs(p.cfg)), ups[1..], p, DeleteLook(ref));
      assert ups[1..][1..] == ups[2..];
      DeleteLooks(w, p, ref, ups[2..]);
    }
  }

  lemma DeleteLooks(w: World, p: Plain, ref: string, ups: seq<bool>)
    requires AllUp(ups) && |ups| >= 3
    ensures var (q, op) := OpRun(w, p, DeleteLook(ref), ups);
            op == Finished(true) && q.rows == p.rows - {ref} && q.cfg == p.cfg && q.ext == ExtWithout(w, p, ref)
  {
    if OwnsCopy(p, ref) {
      var b := p.rows[ref].backend;
      var q := ApplyPlain(p, Away(w, p, b, ref));
      AwayExt(w, p, b, ref);
      StepOf(w, p, DeleteLook(ref), ups, p, DeleteWipe(ref, b));
      StepOf(w, p, DeleteWipe(ref, b), ups[1..], q, DeleteLast(ref));
      StepOf(w, q, DeleteLast(ref), ups[1..][1..], ApplyPlain(q, RemoveRow(ref)), Finished(true));
    } else {
      StepOf(w, p, DeleteLook(ref), ups, p, DeleteLast(ref));
      StepOf(w, p, DeleteLast(ref), ups[1..], ApplyPlain(p, RemoveRow(ref)), Finished(true));
    }
  }

  /** The external delete is best effort: when it fails the row goes all the same. */
  lemma DeleteGoesOn(w: World, p: Plain, ref: string)
    requires ref !in BootstrapRefs(p.cfg) && OwnsCopy(p, ref)
    ensures OpRun(w, p, DeleteOp(ref), [true, true, true, false, true]) == (p.(rows := p.rows - {ref}), Finished(true))
  {
    var ups, b := [true, true, true, false, true], p.rows[ref].backend;
    StepOf(w, p, DeleteOp(ref), ups, p, DeleteCheck(ref, VaultRefs(p.cfg)));
    StepOf(w, p, DeleteCheck(ref, VaultRefs(p.cfg)), ups[1..], p, DeleteLook(ref));
    StepOf(w, p, DeleteLook(ref), ups[1..][1..], p, DeleteWipe(ref, b));
    StepOf(w, p, DeleteWipe(ref, b), ups[1..][1..][1..], p, DeleteLast(ref));
    StepOf(w, p, DeleteLast(ref), ups[1..][1..][1..][1..], p.(rows := p.rows - {ref}), Finished(true));
  }

  // ---------------------------------------------------------------- Set

  /** The row and the object for a value kept in `b`. */
  function RowFor(b: Backend, ref: string, v: string): PlainRow {
    match b
    case DB => Held(Some(v))
    case Vault => Points(Vault, "timothy/" + ref + "#value")
    case ASM => Points(ASM, "timothy/" + ref)
  }

  function ObjectFor(b: Backend, v: string): Object {
    if b == Vault then Fields(map["value" := v]) else Text(v)
  }

  /** A value can be kept there: in the table always, elsewhere under a plain name and by a login that works. */
  predicate CanKeep(w: World, p: Plain, b: Backend, ref: string) {
    b == DB || (ValidExternalRefName(ref) && Login(w, p, b).Some?)
  }

  /** ... and is: one object more or changed, at this store's own place. */
  function ExtWith(w: World, p: Plain, b: Backend, ref: string, v: string): External {
    match Login(w, p, b)
    case Some(site) => p.ext[Place(site, w.named(b, "timothy/" + ref)) := ObjectFor(b, v)]
    case None => p.ext
  }

  lemma ThroughExt(w: World, p: Plain, b: Backend, ref: string, v: string, next: Op)
    requires b != DB
    ensures var (effect, then_) := Through(w, p, b, ref, v, next);
            var q := ApplyPlain(p, effect);
            && q.rows == p.rows && q.cfg == p.cfg && q.ext == ExtWith(w, p, b, ref, v)
            && then_ == if Login(w, p, b).Some? then next else Finished(false)
  {
    OwnNameIs(w, b, ref);
  }

  /** A Set whose calls all work succeeds exactly when the default can keep the value; then the row and one object say
      so, and nothing else has changed; else nothing has. */
  lemma SetFinishes(w: World, p: Plain, ref: string, v: string, ups: seq<bool>)
    requires AllUp(ups) && |ups| >= 3
    ensures var (q, op) := OpRun(w, p, SetOp(ref, v), ups);
            var d := p.cfg.default;
            && op == Finished(CanKeep(w, p, d, ref)) && q.cfg == p.cfg
            && (if CanKeep(w, p, d, ref) then
                  q.rows == p.rows[ref := RowFor(d, ref, v)] && q.ext == ExtWith(w, p, d, ref, v)
                else q.rows == p.rows && q.ext == p.ext)
  {
    var d := p.cfg.default;
    StepOf(w, p, SetOp(ref, v), ups, p, SetWrite(ref, v, d));
    if d == DB {
      StepOf(w, p, SetWrite(ref, v, DB), ups[1..], ApplyPlain(p, PutDb(ref, v)), Finished(true));
    } else if !ValidExternalRefName(ref) {
      StepOf(w, p, SetWrite(ref, v, d), ups[1..], p, Finished(false));
    } else {
      SetGoesThrough(w, p, ref, v, ups[1..]);
    }
  }

  lemma SetGoesThrough(w: World, p: Plain, ref: string, v: string, ups: seq<bool>)
    requires AllUp(ups) && |ups| >= 2 && p.cfg.default != DB && ValidExternalRefName(ref)
    ensures var (q, op) := OpRun(w, p, SetWrite(ref, v, p.cfg.default), ups);
            var d := p.cfg.default;
            && op == Finished(Login(w, p, d).Some?) && q.cfg == p.cfg && q.ext == ExtWith(w, p, d, ref, v)
            && q.rows == if Login(w, p, d).Some? then p.rows[ref := RowFor(d, ref, v)] else p.rows
  {
    var d := p.cfg.default;
    var (effect, next) := Through(w, p, d, ref, v, SetPoint(ref, d));
    ThroughExt(w, p, d, ref, v, SetPoint(ref, d));
    var q := ApplyPlain(p, effect);
    StepOf(w, p, SetWrite(ref, v, d), ups, q, next);
    if next == SetPoint(ref, d) {
      assert Pointer(Vault, ref) == "timothy/" + ref + "#value";
      StepOf(w, q, SetPoint(ref, d), ups[1..], ApplyPlain(q, PutRef(ref, d, Pointer(d, ref))), Finished(true));
    }
  }

  // ---------------------------------------------------------------- Migrate

  /** The target may have the secret: only db storage may have a login's. */
  predicate MayHave(p: Plain, target: Backend, ref: string) {
    target == DB || ref !in BootstrapRefs(p.cfg)
  }

  /** There is a secret elsewhere that can be read, and the target can keep it. */
  ghost predicate CanMove(w: World, p: Plain, ref: string, target: Backend) {
    && ref in p.rows && RowBackend(p.rows[ref]) != target && MayHave(p, target, ref)
    && PlainResolve(w, p, ref).Value? && CanKeep(w, p, target, ref)
  }

  /** The external contents with the copy written and the old one gone. */
  function ExtMoved(w: World, p: Plain, ref: string, target: Backend, v: string): External
    requires ref in p.rows
  {
    var source := RowBackend(p.rows[ref]);
    var x := if target == DB then p.ext else ExtWith(w, p, target, ref, v);
    match Login(w, p, source)
    case Some(site) => x - {Place(site, w.named(source, "timothy/" + ref))}
    case None => x
  }

  lemma CanMoveIsMovable(w: World, p: Plain, ref: string, target: Backend)
    ensures CanMove(w, p, ref, target) <==> Movable(w, p, ref, target)
  {
  }

  lemma {:induction false} LongerIsSame(w: World, p: Plain, op: Op, ups: seq<bool>, more: seq<bool>, q: Plain, ok: bool)
    requires OpRun(w, p, op, ups) == (q, Finished(ok)) && AllUp(ups) && AllUp(more) && |more| >= |ups|
    ensures OpRun(w, p, op, more) == (q, Finished(ok))
    decreases |ups|
  {
    if ups == [] {
      FinishedStays(w, p, ok, more);
    } else {
      var (effect, next) := OpStep(w, p, op, true);
      assert ups[0] && more[0];
      LongerIsSame(w, ApplyPlain(p, effect), next, ups[1..], more[1..], q, ok);
    }
  }

  lemma MovesAll(w: World, p: Plain, ref: string, target: Backend, ups: seq<bool>)
    requires CanMove(w, p, ref, target) && AllUp(ups) && |ups| >= 8
    ensures var (q, op) := OpRun(w, p, MigrateOp(ref, target), ups);
            var v := PlainResolve(w, p, ref).v;
            && op == Finished(true) && q.cfg == p.cfg
            && q.rows == p.rows[ref := RowFor(target, ref, v)] && q.ext == ExtMoved(w, p, ref, target, v)
  {
    CanMoveIsMovable(w, p, ref, target);
    var q, short := WholeMigrate(w, p, ref, target);
    LongerIsSame(w, p, MigrateOp(ref, target), short, ups, q, true);
    WipedOutIs(w, p, ref, target, q);
  }

  lemma WipedOutIs(w: World, p: Plain, ref: string, target: Backend, q: Plain)
    requires CanMove(w, p, ref, target) && AtStage(w, p, ref, target, q, WipedOut)
    ensures var v := PlainResolve(w, p, ref).v;
            q.cfg == p.cfg && q.rows == p.rows[ref := RowFor(target, ref, v)] && q.ext == ExtMoved(w, p, ref, target, v)
  {
    OwnNameIs(w, RowBackend(p.rows[ref]), ref);
    if target != DB { CopiedIs(w, p, ref, target); }
    assert Pointer(Vault, ref) == "timothy/" + ref + "#value";
  }

  lemma CopiedIs(w: World, p: Plain, ref: string, target: Backend)
    requires CanMove(w, p, ref, target) && target != DB
    ensures CopyExt(w, p, ref, target) == ExtWith(w, p, target, ref, PlainResolve(w, p, ref).v)
  {
    OwnNameIs(w, target, ref);
  }

  lemma StepsDown(w: World, q: Plain, op: Op)
    requires Left(op) > 0
    ensures Left(OpStep(w, q, op, true).1) < Left(op)
    ensures Left(OpStep(w, q, op, true).1) > 0 || OpStep(w, q, op, true).1.Finished?
  {
  }

  lemma {:induction false} RunsOut(w: World, q: Plain, op: Op, ups: seq<bool>)
    requires AllUp(ups) && |ups| >= Left(op) && (Left(op) > 0 || op.Finished?)
    ensures OpRun(w, q, op, ups).1.Finished?
    decreases |ups|
  {
    if ups != [] {
      var (effect, next) := OpStep(w, q, op, true);
      assert ups[0];
      if Left(op) > 0 { StepsDown(w, q, op); }
      RunsOut(w, ApplyPlain(q, effect), next, ups[1..]);
    }
  }

  lemma MovesNothing(w: World, p: Plain, ref: string, target: Backend, ups: seq<bool>)
    requires !CanMove(w, p, ref, target) && AllUp(ups) && |ups| >= 8
    ensures var (q, op) := OpRun(w, p, MigrateOp(ref, target), ups);
            && q.rows == p.rows && q.ext == p.ext && q.cfg == p.cfg && op.Finished?
            && (op.ok <==> ref in p.rows && RowBackend(p.rows[ref]) == target && MayHave(p, target, ref))
  {
    CanMoveIsMovable(w, p, ref, target);
    RunsOut(w, p, MigrateOp(ref, target), ups);
    MigrateRun(w, p, ref, target, p, MigrateOp(ref, target), ups);
    if !MayHave(p, target, ref) {
      Refuses(w, p, ref, target, ups);
    } else if ref in p.rows && RowBackend(p.rows[ref]) == target {
      IsThere(w, p, ref, target, ups);
    }
  }

  lemma Refuses(w: World, p: Plain, ref: string, target: Backend, ups: seq<bool>)
    requires !MayHave(p, target, ref) && AllUp(ups) && |ups| >= 8
    ensures OpRun(w, p, MigrateOp(ref, target), ups) == (p, Finished(false))
  {
    StepOf(w, p, MigrateOp(ref, target), ups, p, MigrateCheck(ref, target, VaultRefs(p.cfg)));
    StepOf(w, p, MigrateCheck(ref, target, VaultRefs(p.cfg)), ups[1..], p, Finished(false));
  }

  lemma IsThere(w: World, p: Plain, ref: string, target: Backend, ups: seq<bool>)
    requires MayHave(p, target, ref) && ref in p.rows && RowBackend(p.rows[ref]) == target && AllUp(ups) && |ups| >= 8
    ensures OpRun(w, p, MigrateOp(ref, target), ups) == (p, Finished(true))
  {
    if target == DB {
      StepOf(w, p, MigrateOp(ref, target), ups, p, MigrateRow(ref, target));
      StepOf(w, p, MigrateRow(ref, target), ups[1..], p, Finished(true));
    } else {
      StepOf(w, p, MigrateOp(ref, target), ups, p, MigrateCheck(ref, target, VaultRefs(p.cfg)));
      StepOf(w, p, MigrateCheck(ref, target, VaultRefs(p.cfg)), ups[1..], p, MigrateRow(ref, target));
      StepOf(w, p, MigrateRow(ref, target), ups[1..][1..], p, Finished(true));
    }
  }

  /** A Migrate whose calls all work succeeds exactly when the target may have the secret and has it, or it can be read
      and kept there.  Then the row says so, the copy is at this store's own place in the target and the one at its
      place in the old home is gone, and nothing else has changed; else nothing has. */
  lemma MigrateFinishes(w: World, p: Plain, ref: string, target: Backend, ups: seq<bool>)
    requires AllUp(ups) && |ups| >= 8
    ensures var (q, op) := OpRun(w, p, MigrateOp(ref, target), ups);
            var there := ref in p.rows && RowBackend(p.rows[ref]) == target && MayHave(p, target, ref);
            && op == Finished(there || CanMove(w, p, ref, target)) && q.cfg == p.cfg
            && (if CanMove(w, p, ref, target) then
                  var v := PlainResolve(w, p, ref).v;
                  q.rows == p.rows[ref := RowFor(target, ref, v)] && q.ext == ExtMoved(w, p, ref, target, v)
                else q.rows == p.rows && q.ext == p.ext)
  {
    if CanMove(w, p, ref, target) {
      MovesAll(w, p, ref, target, ups);
    } else {
      MovesNothing(w, p, ref, target, ups);
    }
  }

  // ---------------------------------------------------------------- what is read

  /** A row in db storage answers what its bytes open to under its ref, else what they open to in the legacy format. */
  lemma DbRowAnswers(w: World, s: State, ref: string)
    ensures ref !in s.rows ==> Answer(w, s, ref) == NotFound
    ensures ref in s.rows && s.rows[ref].DbRow? ==>
              var box := s.rows[ref].box;
              Answer(w, s, ref)
              == match (w.aead.open(ref, box), w.aead.open("", box))
                 case (Some(v), _) => Value(v)
                 case (None, Some(v)) => Value(v)
                 case (None, None) => Failed
  {
  }

  /** A reader or sweep that finds a row in the legacy format, and is not interrupted, leaves it bound to its ref. */
  lemma LegacyIsResealed(w: World, s: System, k: nat, ref: string, nonce: Bytes)
    requires Lawful(w) && k !in s.reseals && ref in s.store.rows && s.store.rows[ref].DbRow?
    requires w.aead.open(ref, s.store.rows[ref].box) == None && w.aead.open("", s.store.rows[ref].box).Some?
    ensures var t := Run(w, s, [ReadRow(k, ref), Reseal(k, nonce)]);
            && t.Some? && t.value.reseals == s.reseals && t.value.store.rows.Keys == s.store.rows.Keys
            && t.value.store.rows[ref].DbRow?
            && w.aead.open(ref, t.value.store.rows[ref].box) == w.aead.open("", s.store.rows[ref].box)
            && forall r | r in s.store.rows && r != ref :: t.value.store.rows[r] == s.store.rows[r]
  {
    var box := s.store.rows[ref].box;
    var r := Pending(ref, box, w.aead.open("", box).value);
    var s1 := s.(reseals := s.reseals[k := r]);
    assert Next(w, s, ReadRow(k, ref)) == Some(s1);
    assert s1.reseals - {k} == s.reseals;
    var t := Next(w, s1, Reseal(k, nonce));
    assert Run(w, s1, [Reseal(k, nonce)]) == t;
    assert [ReadRow(k, ref), Reseal(k, nonce)][1..] == [Reseal(k, nonce)];
  }

  /** A pointer "path#field" reads that field where the path leads; a vault path alone reads "value", an AWS id alone
      the whole text.  Vault paths may start with a slash. */
  lemma PointerReads(w: World, p: Plain, b: Backend, id: string, field: string, o: Object)
    requires b != DB && '#' !in id && '#' !in field && Login(w, p, b).Some?
    requires var at := Place(Login(w, p, b).value, w.named(b, if b == Vault then TrimSlash(id) else id));
             at in p.ext && p.ext[at] == o
    ensures ReadExt(w, p, b, id + "#" + field) == ReadsAs(w, o, field)
    ensures ReadExt(w, p, b, id) == ReadsAs(w, o, if b == Vault then "value" else "")
  {
    HashAt(id, field);
    NoHash(id);
  }

  /** A field of an object, or of a text's JSON; no field of a text is the text. */
  function ReadsAs(w: World, o: Object, field: string): Option<string> {
    match o
    case Fields(m) => if field in m then Some(m[field]) else None
    case Text(t) => if field == "" then Some(t) else w.pluck(t, field)
  }

  lemma HashAt(id: string, field: string)
    requires '#' !in field
    ensures forall d :: SplitRef(id + "#" + field, d) == (id, field)
  {
    var s := id + "#" + field;
    assert s[|id|] == '#' && s[..|id|] == id && s[|id|+1..] == field;
    forall j | |id| < j < |s| ensures s[j] != '#' { assert s[j] == field[j - |id| - 1]; }
    assert LastHash(s) == |id|;
  }

  lemma NoHash(id: string)
    requires '#' !in id
    ensures forall d :: SplitRef(id, d) == (id, d)
  {
    assert LastHash(id) < 0;
  }

  /** Vault is reached exactly at its configured address and mount ("secret" when none is given), with the stored
      token, or with the token an AppRole login by the stored secret_id returns, when vault accepts it. */
  lemma VaultLoginExactly(w: World, p: Plain, site: Site)
    ensures VaultLogin(w, p) == Some(site) <==>
            && p.cfg.vault.Some?
            && var c := p.cfg.vault.value;
               var ref := if c.auth == "approle" then c.secretIdRef
                          else if c.tokenRef == "" then "VAULT_TOKEN" else c.tokenRef;
               && c.address != "" && site == VaultSite(c.address, if c.mount == "" then "secret" else c.mount)
               && ref in p.rows && p.rows[ref].Held? && p.rows[ref].value.Some?
               && var secret := p.rows[ref].value.value;
                  if c.auth == "approle" then
                    var token := w.approleLogin(c.roleId, secret);
                    token.Some? && token.value != "" && w.vaultAccepts(c.address, token.value)
                  else w.vaultAccepts(c.address, secret)
  {
  }

  /** AWS is reached by the cached client, else by one built from the settings, with the stored secret key when they
      ask for static keys. */
  lemma AsmLoginExactly(w: World, p: Plain)
    ensures p.client.Some? ==> AsmLogin(w, p) == AsmAccount(w, p.client.value)
    ensures p.client.None? && p.cfg.asm.None? ==>
              AsmLogin(w, p) == AsmAccount(w, Client(AsmConfig("", "", "", "", ""), ""))
    ensures p.client.None? && p.cfg.asm.Some? ==>
              var c := p.cfg.asm.value;
              var ref := if c.secretKeyRef == "" then "AWS_SECRET_ACCESS_KEY" else c.secretKeyRef;
              AsmLogin(w, p)
              == if c.auth != "keys" then AsmAccount(w, Client(c, ""))
                 else if ref in p.rows && p.rows[ref].Held? && p.rows[ref].value.Some? then
                   AsmAccount(w, Client(c, p.rows[ref].value.value))
                 else None
  {
  }

  function AsmAccount(w: World, client: Client): Option<Site> {
    match w.asmAccount(client) case Some(account) => Some(AsmSite(account)) case None => None
  }

  /** A name that is let through to an external system is one path segment that leads nowhere else. */
  lemma NamesStayUnder(ref: string)
    requires ValidExternalRefName(ref)
    ensures ref != "" && '/' !in ref && '#' !in ref && forall a, b :: ref != a + ".." + b
  {
    forall a, b ensures ref != a + ".." + b { DotsAt(a, b); }
  }

  lemma DotsAt(a: string, b: string)
    ensures (a + ".." + b)[|a|] == '.' && (a + ".." + b)[|a| + 1] == '.'
  {
  }

  /** Letters, digits, '_', '-' and single dots are let through, up to 128 of them. */
  lemma PlainNamesPass(ref: string)
    requires 1 <= |ref| <= 128
    requires forall i | 0 <= i < |ref| ::
               'A' <= ref[i] <= 'Z' || 'a' <= ref[i] <= 'z' || '0' <= ref[i] <= '9' || ref[i] in {'_', '-', '.'}
    requires forall i | 0 <= i < |ref| - 1 :: ref[i] != '.' || ref[i+1] != '.'
    ensures ValidExternalRefName(ref)
  {
  }
}
