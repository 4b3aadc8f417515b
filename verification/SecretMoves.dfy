/** What Set, Migrate and Delete do to every answer, each run alone and stopped anywhere
    (internal/secretstore/secretstore.go). */
module SecretMoves {
  import opened Options
  import opened SecretStore

  // ---------------------------------------------------------------- objects and pointers

  /** The name of the object this store keeps for `ref`. */
  function OwnName(w: World, b: Backend, ref: string): string {
    ObjectName(w, b, ExternalRef(ref))
  }

  /** The row points, in `b`, at the object this store keeps for `ref`. */
  predicate Aims(w: World, row: PlainRow, b: Backend, ref: string) {
    row.Points? && row.backend == b && NameOf(w, b, row.backendRef) == OwnName(w, b, ref)
  }

  /** What a pointer reads out of an object just written with `v`. */
  function Overwritten(w: World, b: Backend, backendRef: string, v: string): Option<string> {
    Extract(w, Stored(b, v), SplitRef(backendRef, DefaultField(b)).1)
  }

  lemma ValidNameHasNoHash(ref: string)
    requires ValidExternalRefName(ref)
    ensures '#' !in ref
  {
  }

  /** The pointer stored for a ref names its own object, and the whole value in it. */
  lemma PointerAims(w: World, b: Backend, ref: string, v: string)
    requires ValidExternalRefName(ref)
    ensures NameOf(w, b, Pointer(b, ref)) == OwnName(w, b, ref)
    ensures Overwritten(w, b, Pointer(b, ref), v) == Some(v)
  {
    ValidNameHasNoHash(ref);
    SplitPointer(b, ref, DefaultField(b));
    SplitPointer(b, ref, "");
  }

  /** A write is read by exactly the pointers that aim at it. */
  lemma ReadAfterWrite(w: World, p: Plain, b: Backend, ref: string, v: string, c: Backend, r: string)
    requires WriteExt(w, p, b, ExternalRef(ref), v).Some?
    ensures var q := p.(ext := WriteExt(w, p, b, ExternalRef(ref), v).value);
            ReadExt(w, q, c, r)
            == if Aims(w, Points(c, r), b, ref) then Overwritten(w, b, r, v) else ReadExt(w, p, c, r)
  {
    var q := p.(ext := WriteExt(w, p, b, ExternalRef(ref), v).value);
    assert VaultLogin(w, q) == VaultLogin(w, p) && AsmLogin(w, q) == AsmLogin(w, p);
  }

  lemma ReadAfterDelete(w: World, p: Plain, b: Backend, ref: string, c: Backend, r: string)
    requires DeleteExt(w, p, b, ExternalRef(ref)).Some?
    ensures var q := p.(ext := DeleteExt(w, p, b, ExternalRef(ref)).value);
            ReadExt(w, q, c, r) == if Aims(w, Points(c, r), b, ref) then None else ReadExt(w, p, c, r)
  {
    var q := p.(ext := DeleteExt(w, p, b, ExternalRef(ref)).value);
    assert VaultLogin(w, q) == VaultLogin(w, p) && AsmLogin(w, q) == AsmLogin(w, p);
  }

  /** What is written through is read back by the pointer stored for it. */
  lemma WriteThenRead(w: World, p: Plain, b: Backend, ref: string, v: string)
    requires WriteExt(w, p, b, ExternalRef(ref), v).Some? && ValidExternalRefName(ref)
    ensures ReadExt(w, p.(ext := WriteExt(w, p, b, ExternalRef(ref), v).value), b, Pointer(b, ref)) == Some(v)
  {
    PointerAims(w, b, ref, v);
    ReadAfterWrite(w, p, b, ref, v, b, Pointer(b, ref));
  }

  // ---------------------------------------------------------------- logins

  /** The db rows that logging in by the settings reads. */
  function LoginRefs(cfg: Settings): set<string> {
    (if cfg.vault.Some? then {VaultLoginRef(cfg.vault.value)} else {})
    + (if AsmSettings(cfg).auth == "keys" then {AsmLoginRef(AsmSettings(cfg))} else {})
  }

  /** The refused refs cover every login, except an empty secret_id_ref, which no ref can be moved under. */
  lemma BootstrapCoversLogins(cfg: Settings)
    ensures LoginRefs(cfg) <= BootstrapRefs(cfg) + {""}
  {
  }

  ghost predicate LoginsSame(w: World, p: Plain, q: Plain) {
    forall b :: Login(w, q, b) == Login(w, p, b)
  }

  /** No login that works is lost or leads elsewhere. */
  ghost predicate LoginsKept(w: World, p: Plain, q: Plain) {
    forall b :: Login(w, p, b).Some? ==> Login(w, q, b) == Login(w, p, b)
  }

  /** A row no login reads can change without touching the logins. */
  lemma LoginApart(w: World, p: Plain, q: Plain, ref: string)
    requires q.cfg == p.cfg && q.client == p.client && ref !in LoginRefs(p.cfg)
    requires forall o | o != ref :: DbSecret(q, o) == DbSecret(p, o)
    ensures LoginsSame(w, p, q)
  {
    assert VaultLogin(w, q) == VaultLogin(w, p) && AsmLogin(w, q) == AsmLogin(w, p);
    forall b ensures Login(w, q, b) == Login(w, p, b) {}
  }

  /** Bringing a row into db storage can only make a login possible, never break one. */
  lemma LoginGain(w: World, p: Plain, q: Plain, ref: string)
    requires q.cfg == p.cfg && q.client == p.client && DbSecret(p, ref) == None
    requires forall o | o != ref :: DbSecret(q, o) == DbSecret(p, o)
    ensures LoginsKept(w, p, q)
  {
    assert VaultLogin(w, p).Some? ==> VaultLogin(w, q) == VaultLogin(w, p);
    assert AsmLogin(w, p).Some? ==> AsmLogin(w, q) == AsmLogin(w, p);
    forall b ensures Login(w, p, b).Some? ==> Login(w, q, b) == Login(w, p, b) {}
  }

  lemma LoginExt(w: World, p: Plain, x: External)
    ensures LoginsSame(w, p, p.(ext := x))
  {
    assert VaultLogin(w, p.(ext := x)) == VaultLogin(w, p) && AsmLogin(w, p.(ext := x)) == AsmLogin(w, p);
    forall b ensures Login(w, p.(ext := x), b) == Login(w, p, b) {}
  }

  /** Reading depends on the logins and the external contents only. */
  lemma ReadFrame(w: World, p: Plain, q: Plain, c: Backend, r: string)
    requires Login(w, q, c) == Login(w, p, c) && q.ext == p.ext
    ensures ReadExt(w, q, c, r) == ReadExt(w, p, c, r)
  {
  }

  /** An answer depends on the row, the login of its backend and the external contents only. */
  lemma AnswerFrame(w: World, p: Plain, q: Plain, o: string)
    requires o in p.rows && o in q.rows && q.rows[o] == p.rows[o] && q.ext == p.ext
    requires p.rows[o].Points? ==> Login(w, q, p.rows[o].backend) == Login(w, p, p.rows[o].backend)
    ensures PlainResolve(w, q, o) == PlainResolve(w, p, o)
  {
  }

  // ---------------------------------------------------------------- Migrate

  /** Every value that could be read before can be read after, and no row appears or vanishes. */
  ghost predicate Keeps(w: World, p: Plain, q: Plain) {
    && q.rows.Keys == p.rows.Keys
    && forall o :: PlainResolve(w, p, o).Value? ==> PlainResolve(w, q, o) == PlainResolve(w, p, o)
  }

  /** A migration that gets past its checks and has the value in hand. */
  ghost predicate Movable(w: World, p: Plain, ref: string, target: Backend) {
    && ref in p.rows && RowBackend(p.rows[ref]) != target && PlainResolve(w, p, ref).Value?
    && (target != DB ==>
          && ref !in BootstrapRefs(p.cfg) && ValidExternalRefName(ref)
          && WriteExt(w, p, target, ExternalRef(ref), PlainResolve(w, p, ref).v).Some?)
  }

  /** The external contents once the copy is written, and once the old home is wiped. */
  function CopyExt(w: World, p: Plain, ref: string, target: Backend): External {
    match PlainResolve(w, p, ref)
    case Value(v) => (match WriteExt(w, p, target, ExternalRef(ref), v) case Some(x) => x case None => p.ext)
    case _ => p.ext
  }

  function WipeExt(w: World, p: Plain, x: External, ref: string, source: Backend): External {
    match Login(w, p, source)
    case Some(site) => x - {Place(site, OwnName(w, source, ref))}
    case None => x
  }

  function FlipRows(w: World, p: Plain, ref: string, target: Backend): map<string, PlainRow> {
    match PlainResolve(w, p, ref)
    case Value(v) => p.rows[ref := if target == DB then Held(Some(v)) else Points(target, Pointer(target, ref))]
    case _ => p.rows
  }

  datatype Stage = Untouched | CopiedTo | FlippedTo | WipedOut

  /** The store at a stage of a Migrate begun in `p`; the AWS client may have been built meanwhile. */
  ghost predicate AtStage(w: World, p: Plain, ref: string, target: Backend, q: Plain, stage: Stage)
    requires ref in p.rows || stage == Untouched
  {
    && q.cfg == p.cfg && LoginsKept(w, p, q)
    && (stage in {Untouched, CopiedTo} || target != DB || ref !in LoginRefs(p.cfg) ==> LoginsSame(w, p, q))
    && (stage != Untouched ==> Movable(w, p, ref, target))
    && match stage
       case Untouched => q.rows == p.rows && q.ext == p.ext
       case CopiedTo => target != DB && q.rows == p.rows && q.ext == CopyExt(w, p, ref, target)
       case FlippedTo => q.rows == FlipRows(w, p, ref, target) && q.ext == CopyExt(w, p, ref, target)
       case WipedOut =>
         && q.rows == FlipRows(w, p, ref, target)
         && q.ext == WipeExt(w, p, CopyExt(w, p, ref, target), ref, RowBackend(p.rows[ref]))
  }

  /** Where a Migrate of `ref` that began in `p` can be. */
  ghost predicate MigrateAt(w: World, p: Plain, ref: string, target: Backend, q: Plain, op: Op) {
    var source := if ref in p.rows then RowBackend(p.rows[ref]) else DB;
    var allowed := target != DB ==> ref !in BootstrapRefs(p.cfg);
    var moving := ref in p.rows && source != target && allowed;
    match op
    case MigrateOp(_, _) => AtStage(w, p, ref, target, q, Untouched) && op == MigrateOp(ref, target)
    case MigrateCheck(_, _, _) =>
      AtStage(w, p, ref, target, q, Untouched) && target != DB && op == MigrateCheck(ref, target, VaultRefs(p.cfg))
    case MigrateRow(_, _) => AtStage(w, p, ref, target, q, Untouched) && allowed && op == MigrateRow(ref, target)
    case MigrateRead(_, _, _) =>
      AtStage(w, p, ref, target, q, Untouched) && moving && op == MigrateRead(ref, target, source)
    case MigrateFetch(_, _, _, b, r) =>
      && AtStage(w, p, ref, target, q, Untouched) && moving
      && op == MigrateFetch(ref, target, source, b, r) && p.rows[ref] == Points(b, r)
    case MigrateWrite(_, _, _, v) =>
      && AtStage(w, p, ref, target, q, Untouched) && moving
      && op == MigrateWrite(ref, target, source, v) && PlainResolve(w, p, ref) == Value(v)
    case MigratePoint(_, _, _) =>
      moving && AtStage(w, p, ref, target, q, CopiedTo) && op == MigratePoint(ref, target, source)
    case MigrateWipe(_, _) =>
      moving && AtStage(w, p, ref, target, q, FlippedTo) && op == MigrateWipe(ref, source)
    case Finished(ok) =>
      if ok then (AtStage(w, p, ref, target, q, Untouched) && ref in p.rows && source == target)
                 || (ref in p.rows && (AtStage(w, p, ref, target, q, FlippedTo)
                                    || AtStage(w, p, ref, target, q, WipedOut)))
      else AtStage(w, p, ref, target, q, Untouched) || (ref in p.rows && AtStage(w, p, ref, target, q, CopiedTo))
    case _ => false
  }

  /** The client can be built at any moment: by this Migrate or by a reader. */
  lemma UsedKeepsStage(w: World, p: Plain, ref: string, target: Backend, q: Plain, stage: Stage, b: Backend)
    requires (ref in p.rows || stage == Untouched) && AtStage(w, p, ref, target, q, stage)
    ensures AtStage(w, p, ref, target, Used(q, b), stage)
  {
    UsingIsUnseen(w, q, b);
  }

  lemma UsedKeepsMigrate(w: World, p: Plain, ref: string, target: Backend, q: Plain, op: Op, b: Backend)
    requires MigrateAt(w, p, ref, target, q, op)
    ensures MigrateAt(w, p, ref, target, Used(q, b), op)
  {
    forall stage: Stage | (ref in p.rows || stage == Untouched) && AtStage(w, p, ref, target, q, stage)
      ensures AtStage(w, p, ref, target, Used(q, b), stage)
    {
      UsedKeepsStage(w, p, ref, target, q, stage, b);
    }
  }

  /** The copy: written where the same login led at the start. */
  lemma CopyStep(w: World, p: Plain, ref: string, target: Backend, q: Plain, v: string)
    requires ref in p.rows && AtStage(w, p, ref, target, q, Untouched) && PlainResolve(w, p, ref) == Value(v)
    requires target != DB && RowBackend(p.rows[ref]) != target && ref !in BootstrapRefs(p.cfg)
    requires ValidExternalRefName(ref) && WriteExt(w, q, target, ExternalRef(ref), v).Some?
    ensures var x := WriteExt(w, q, target, ExternalRef(ref), v).value;
            AtStage(w, p, ref, target, ApplyPlain(q, Reach(target, x)), CopiedTo)
  {
    var x := WriteExt(w, q, target, ExternalRef(ref), v).value;
    UsingIsUnseen(w, q, target);
    LoginExt(w, Used(q, target), x);
  }

  lemma FlipStep(w: World, p: Plain, ref: string, target: Backend, q: Plain)
    requires target != DB && ref in p.rows && AtStage(w, p, ref, target, q, CopiedTo)
    ensures AtStage(w, p, ref, target, ApplyPlain(q, PutRef(ref, target, Pointer(target, ref))), FlippedTo)
  {
    BootstrapCoversLogins(p.cfg);
    LoginApart(w, q, ApplyPlain(q, PutRef(ref, target, Pointer(target, ref))), ref);
  }

  lemma HomeStep(w: World, p: Plain, ref: string, q: Plain, v: string)
    requires ref in p.rows && AtStage(w, p, ref, DB, q, Untouched) && PlainResolve(w, p, ref) == Value(v)
    requires RowBackend(p.rows[ref]) != DB
    ensures AtStage(w, p, ref, DB, ApplyPlain(q, PutDb(ref, v)), FlippedTo)
  {
    var z := ApplyPlain(q, PutDb(ref, v));
    LoginGain(w, q, z, ref);
    if ref !in LoginRefs(p.cfg) { LoginApart(w, q, z, ref); }
  }

  lemma WipeStep(w: World, p: Plain, ref: string, target: Backend, q: Plain)
    requires ref in p.rows && AtStage(w, p, ref, target, q, FlippedTo)
    ensures var z := ApplyPlain(q, Away(w, q, RowBackend(p.rows[ref]), ref));
            AtStage(w, p, ref, target, z, WipedOut)
  {
    var source := RowBackend(p.rows[ref]);
    var z := ApplyPlain(q, Away(w, q, source, ref));
    assert source == DB || Login(w, p, source).Some?;
    UsingIsUnseen(w, q, source);
    LoginExt(w, Used(q, source), z.ext);
  }

  lemma MigrateStep(w: World, p: Plain, ref: string, target: Backend, q: Plain, op: Op, up: bool)
    requires MigrateAt(w, p, ref, target, q, op)
    ensures var (effect, next) := OpStep(w, q, op, up);
            MigrateAt(w, p, ref, target, ApplyPlain(q, effect), next)
  {
    if op.MigrateFetch? {
      FetchStepKeeps(w, p, ref, target, q, op, up);
    } else if op.MigrateWrite? {
      WriteStepKeeps(w, p, ref, target, q, op, up);
    } else if op.MigratePoint? {
      PointStepKeeps(w, p, ref, target, q, op, up);
    } else if op.MigrateWipe? {
      WipeStepKeeps(w, p, ref, target, q, op, up);
    } else {
      MigrateKinds(w, p, ref, target, q, op);
      EarlyStepKeeps(w, p, ref, target, q, op, up);
    }
  }

  lemma EarlyStepKeeps(w: World, p: Plain, ref: string, target: Backend, q: Plain, op: Op, up: bool)
    requires MigrateAt(w, p, ref, target, q, op)
    requires op.MigrateOp? || op.MigrateCheck? || op.MigrateRow? || op.MigrateRead? || op.Finished?
    ensures var (effect, next) := OpStep(w, q, op, up);
            MigrateAt(w, p, ref, target, ApplyPlain(q, effect), next)
  {
  }

  lemma PointStepKeeps(w: World, p: Plain, ref: string, target: Backend, q: Plain, op: Op, up: bool)
    requires MigrateAt(w, p, ref, target, q, op) && op.MigratePoint?
    ensures var (effect, next) := OpStep(w, q, op, up);
            MigrateAt(w, p, ref, target, ApplyPlain(q, effect), next)
  {
    FlipStep(w, p, ref, target, q);
  }

  lemma WipeStepKeeps(w: World, p: Plain, ref: string, target: Backend, q: Plain, op: Op, up: bool)
    requires MigrateAt(w, p, ref, target, q, op) && op.MigrateWipe?
    ensures var (effect, next) := OpStep(w, q, op, up);
            MigrateAt(w, p, ref, target, ApplyPlain(q, effect), next)
  {
    WipeStep(w, p, ref, target, q);
  }

  lemma FetchStepKeeps(w: World, p: Plain, ref: string, target: Backend, q: Plain, op: Op, up: bool)
    requires MigrateAt(w, p, ref, target, q, op) && op.MigrateFetch?
    ensures var (effect, next) := OpStep(w, q, op, up);
            MigrateAt(w, p, ref, target, ApplyPlain(q, effect), next)
  {
    UsedKeepsStage(w, p, ref, target, q, Untouched, op.at);
    assert ReadExt(w, q, op.at, op.backendRef) == ReadExt(w, p, op.at, op.backendRef);
  }

  lemma WriteStepKeeps(w: World, p: Plain, ref: string, target: Backend, q: Plain, op: Op, up: bool)
    requires MigrateAt(w, p, ref, target, q, op) && op.MigrateWrite?
    ensures var (effect, next) := OpStep(w, q, op, up);
            MigrateAt(w, p, ref, target, ApplyPlain(q, effect), next)
  {
    if up && target == DB {
      HomeStep(w, p, ref, q, op.value);
    } else if up && ValidExternalRefName(ref) {
      if WriteExt(w, q, target, ExternalRef(ref), op.value).Some? { CopyStep(w, p, ref, target, q, op.value); }
      UsedKeepsStage(w, p, ref, target, q, Untouched, target);
    }
  }

  lemma {:induction false} MigrateRun(w: World, p: Plain, ref: string, target: Backend, q: Plain, op: Op,
                                      ups: seq<bool>)
    requires MigrateAt(w, p, ref, target, q, op)
    ensures MigrateAt(w, p, ref, target, OpRun(w, q, op, ups).0, OpRun(w, q, op, ups).1)
    decreases |ups|
  {
    if ups != [] {
      var (effect, next) := OpStep(w, q, op, ups[0]);
      MigrateStep(w, p, ref, target, q, op, ups[0]);
      MigrateRun(w, p, ref, target, ApplyPlain(q, effect), next, ups[1..]);
    }
  }

  // ---------------------------------------------------------------- which answers a Migrate keeps

  /** The row of `o` survives the copy and the wipe: it does not aim at the copy being wiped, and if it aims
      at the one being written, it reads there what it read before. */
  predicate Survives(w: World, p: Plain, ref: string, target: Backend, o: string)
    requires ref in p.rows && o in p.rows && PlainResolve(w, p, ref).Value? && PlainResolve(w, p, o).Value?
  {
    && !Aims(w, p.rows[o], RowBackend(p.rows[ref]), ref)
    && (Aims(w, p.rows[o], target, ref) ==>
          Overwritten(w, target, p.rows[o].backendRef, PlainResolve(w, p, ref).v) == Some(PlainResolve(w, p, o).v))
  }

  ghost predicate AllSurvive(w: World, p: Plain, ref: string, target: Backend)
    requires ref in p.rows && PlainResolve(w, p, ref).Value?
  {
    forall o | o in p.rows && o != ref && PlainResolve(w, p, o).Value? :: Survives(w, p, ref, target, o)
  }

  /** What a row's pointer reads once the copy is written. */
  lemma CopyRead(w: World, p: Plain, ref: string, target: Backend, c: Backend, r: string)
    requires Movable(w, p, ref, target)
    ensures ReadExt(w, p.(ext := CopyExt(w, p, ref, target)), c, r)
            == if target != DB && Aims(w, Points(c, r), target, ref)
               then Overwritten(w, target, r, PlainResolve(w, p, ref).v) else ReadExt(w, p, c, r)
  {
    if target != DB { ReadAfterWrite(w, p, target, ref, PlainResolve(w, p, ref).v, c, r); }
  }

  /** ... and once the old one is wiped. */
  lemma WipeRead(w: World, p: Plain, x: External, ref: string, source: Backend, c: Backend, r: string)
    ensures var y := WipeExt(w, p, x, ref, source);
            ReadExt(w, p.(ext := y), c, r)
            == if Aims(w, Points(c, r), source, ref) then None else ReadExt(w, p.(ext := x), c, r)
  {
    LoginExt(w, p, x);
    LoginExt(w, p, WipeExt(w, p, x, ref, source));
  }

  /** The external contents at a stage. */
  function StageExt(w: World, p: Plain, ref: string, target: Backend, stage: Stage): External
    requires ref in p.rows
  {
    match stage
    case Untouched => p.ext
    case WipedOut => WipeExt(w, p, CopyExt(w, p, ref, target), ref, RowBackend(p.rows[ref]))
    case _ => CopyExt(w, p, ref, target)
  }

  lemma StageRead(w: World, p: Plain, ref: string, target: Backend, q: Plain, stage: Stage, c: Backend, r: string)
    requires ref in p.rows && AtStage(w, p, ref, target, q, stage) && Login(w, p, c).Some?
    ensures ReadExt(w, q, c, r)
            == if stage == WipedOut && Aims(w, Points(c, r), RowBackend(p.rows[ref]), ref) then None
               else if stage != Untouched && target != DB && Aims(w, Points(c, r), target, ref)
                    then Overwritten(w, target, r, PlainResolve(w, p, ref).v)
               else ReadExt(w, p, c, r)
  {
    var x := StageExt(w, p, ref, target, stage);
    LoginExt(w, p, x);
    assert q.ext == x;
    assert ReadExt(w, q, c, r) == ReadExt(w, p.(ext := x), c, r);
    if stage != Untouched { CopyRead(w, p, ref, target, c, r); }
    if stage == WipedOut { WipeRead(w, p, CopyExt(w, p, ref, target), ref, RowBackend(p.rows[ref]), c, r); }
  }

  /** At every stage `ref` itself reads as it did. */
  lemma StageKeepsOwn(w: World, p: Plain, ref: string, target: Backend, q: Plain, stage: Stage)
    requires ref in p.rows && AtStage(w, p, ref, target, q, stage) && PlainResolve(w, p, ref).Value?
    requires stage != Untouched ==> RowBackend(p.rows[ref]) != target
    ensures PlainResolve(w, q, ref) == PlainResolve(w, p, ref)
  {
    var row := q.rows[ref];
    if row.Points? {
      if row == p.rows[ref] {
        StageRead(w, p, ref, target, q, stage, row.backend, row.backendRef);
      } else {
        PointerAims(w, target, ref, PlainResolve(w, p, ref).v);
        StageRead(w, p, ref, target, q, stage, target, row.backendRef);
      }
    }
  }

  lemma StageOther(w: World, p: Plain, ref: string, target: Backend, q: Plain, stage: Stage, o: string)
    requires ref in p.rows && AtStage(w, p, ref, target, q, stage) && PlainResolve(w, p, ref).Value?
    requires o in p.rows && o != ref && PlainResolve(w, p, o).Value?
    ensures stage == Untouched || Survives(w, p, ref, target, o) ==> PlainResolve(w, q, o) == PlainResolve(w, p, o)
    ensures stage == WipedOut && !Survives(w, p, ref, target, o) ==> PlainResolve(w, q, o) != PlainResolve(w, p, o)
  {
    var row := p.rows[o];
    assert q.rows[o] == row;
    if row.Points? { StageRead(w, p, ref, target, q, stage, row.backend, row.backendRef); }
  }

  /** Wherever a Migrate is, it keeps every value if all rows survive its copy and wipe. */
  lemma MigrateAtKeeps(w: World, p: Plain, ref: string, target: Backend, q: Plain, op: Op)
    requires MigrateAt(w, p, ref, target, q, op)
    requires Movable(w, p, ref, target) ==> AllSurvive(w, p, ref, target)
    ensures Keeps(w, p, q)
  {
    var stage := StageAt(w, p, ref, target, q, op);
    if stage == Untouched {
      UntouchedSame(w, p, ref, target, q);
    } else {
      forall o | PlainResolve(w, p, o).Value? ensures PlainResolve(w, q, o) == PlainResolve(w, p, o) {
        if o == ref { StageKeepsOwn(w, p, ref, target, q, stage); } else { StageOther(w, p, ref, target, q, stage, o); }
      }
    }
  }

  lemma StageAt(w: World, p: Plain, ref: string, target: Backend, q: Plain, op: Op) returns (stage: Stage)
    requires MigrateAt(w, p, ref, target, q, op)
    ensures (ref in p.rows || stage == Untouched) && AtStage(w, p, ref, target, q, stage)
    ensures q.rows.Keys == p.rows.Keys
    ensures stage != Untouched ==> RowBackend(p.rows[ref]) != target
  {
    stage :| (ref in p.rows || stage == Untouched) && AtStage(w, p, ref, target, q, stage);
  }

  lemma UntouchedSame(w: World, p: Plain, ref: string, target: Backend, q: Plain)
    requires AtStage(w, p, ref, target, q, Untouched)
    ensures forall o :: PlainResolve(w, q, o) == PlainResolve(w, p, o)
  {
    forall o ensures PlainResolve(w, q, o) == PlainResolve(w, p, o) {
      if o in p.rows { AnswerFrame(w, p, q, o); }
    }
  }

  /** How many steps are left at most. */
  function Left(op: Op): nat {
    match op
    case MigrateOp(_, _) => 8
    case MigrateCheck(_, _, _) => 7
    case MigrateRow(_, _) => 6
    case MigrateRead(_, _, _) => 5
    case MigrateFetch(_, _, _, _, _) => 4
    case MigrateWrite(_, _, _, _) => 3
    case MigratePoint(_, _, _) => 2
    case MigrateWipe(_, _) => 1
    case _ => 0
  }

  ghost predicate MovesOn(w: World, q: Plain, op: Op) {
    Left(OpStep(w, q, op, true).1) < Left(op) && (OpStep(w, q, op, true).1.Finished? ==> op.MigrateWipe?)
  }

  /** While every call works a movable secret moves on. */
  lemma WorkingStep(w: World, p: Plain, ref: string, target: Backend, q: Plain, op: Op)
    requires Movable(w, p, ref, target) && MigrateAt(w, p, ref, target, q, op) && !op.Finished?
    ensures MovesOn(w, q, op)
  {
    if op.MigrateFetch? {
      FetchWorks(w, p, ref, target, q, op);
    } else if op.MigrateWrite? {
      WriteWorks(w, p, ref, target, q, op);
    } else if op.MigratePoint? || op.MigrateWipe? {
      LateWorks(w, p, ref, target, q, op);
    } else {
      MigrateKinds(w, p, ref, target, q, op);
      EarlyWorks(w, p, ref, target, q, op);
    }
  }

  lemma MigrateKinds(w: World, p: Plain, ref: string, target: Backend, q: Plain, op: Op)
    requires MigrateAt(w, p, ref, target, q, op)
    ensures op.MigrateOp? || op.MigrateCheck? || op.MigrateRow? || op.MigrateRead?
            || op.MigrateFetch? || op.MigrateWrite?
            || op.MigratePoint? || op.MigrateWipe? || op.Finished?
  {
  }

  lemma FetchWorks(w: World, p: Plain, ref: string, target: Backend, q: Plain, op: Op)
    requires Movable(w, p, ref, target) && MigrateAt(w, p, ref, target, q, op) && op.MigrateFetch?
    ensures MovesOn(w, q, op)
  {
    assert ReadExt(w, q, op.at, op.backendRef) == ReadExt(w, p, op.at, op.backendRef);
  }

  lemma LateWorks(w: World, p: Plain, ref: string, target: Backend, q: Plain, op: Op)
    requires Movable(w, p, ref, target) && MigrateAt(w, p, ref, target, q, op) && (op.MigratePoint? || op.MigrateWipe?)
    ensures MovesOn(w, q, op)
  {
    assert op.MigratePoint? ==> OpStep(w, q, op, true).1 == MigrateWipe(op.ref, op.source);
    assert op.MigrateWipe? ==> OpStep(w, q, op, true).1 == Finished(true);
  }

  lemma WipeSucceeds(w: World, p: Plain, ref: string, target: Backend, q: Plain, op: Op)
    requires Movable(w, p, ref, target) && MigrateAt(w, p, ref, target, q, op) && op.MigrateWipe?
    ensures var (effect, next) := OpStep(w, q, op, true);
            next == Finished(true) && AtStage(w, p, ref, target, ApplyPlain(q, effect), WipedOut)
  {
    WipeStep(w, p, ref, target, q);
  }

  lemma EarlyWorks(w: World, p: Plain, ref: string, target: Backend, q: Plain, op: Op)
    requires Movable(w, p, ref, target) && MigrateAt(w, p, ref, target, q, op)
    requires op.MigrateOp? || op.MigrateCheck? || op.MigrateRow? || op.MigrateRead?
    ensures MovesOn(w, q, op)
  {
    if op.MigrateRow? || op.MigrateRead? { LookWorks(w, p, ref, target, q, op); }
  }

  lemma LookWorks(w: World, p: Plain, ref: string, target: Backend, q: Plain, op: Op)
    requires Movable(w, p, ref, target) && MigrateAt(w, p, ref, target, q, op) && (op.MigrateRow? || op.MigrateRead?)
    ensures MovesOn(w, q, op)
  {
  }

  lemma WriteWorks(w: World, p: Plain, ref: string, target: Backend, q: Plain, op: Op)
    requires Movable(w, p, ref, target) && MigrateAt(w, p, ref, target, q, op) && op.MigrateWrite?
    ensures MovesOn(w, q, op)
  {
  }

  lemma {:induction false} OneMoreStep(w: World, p: Plain, op: Op, ups: seq<bool>, up: bool)
    ensures var (q, now) := OpRun(w, p, op, ups);
            var (effect, next) := OpStep(w, q, now, up);
            OpRun(w, p, op, ups + [up]) == (ApplyPlain(q, effect), next)
    decreases |ups|
  {
    if ups == [] {
      assert ups + [up] == [up];
    } else {
      var (effect, next) := OpStep(w, p, op, ups[0]);
      assert (ups + [up])[1..] == ups[1..] + [up];
      OneMoreStep(w, ApplyPlain(p, effect), next, ups[1..], up);
    }
  }

  /** A whole migration, every call working. */
  lemma WholeMigrate(w: World, p: Plain, ref: string, target: Backend) returns (q: Plain, ups: seq<bool>)
    requires Movable(w, p, ref, target)
    ensures OpRun(w, p, MigrateOp(ref, target), ups) == (q, Finished(true)) && AtStage(w, p, ref, target, q, WipedOut)
    ensures |ups| <= 8 && forall i | 0 <= i < |ups| :: ups[i]
  {
    q, ups := p, [];
    var op := MigrateOp(ref, target);
    assert AtStage(w, p, ref, target, q, Untouched);
    while !op.Finished?
      invariant OpRun(w, p, MigrateOp(ref, target), ups) == (q, op)
      invariant MigrateAt(w, p, ref, target, q, op)
      invariant op.Finished? ==> op.ok && AtStage(w, p, ref, target, q, WipedOut)
      invariant |ups| + Left(op) <= 8 && forall i | 0 <= i < |ups| :: ups[i]
      decreases Left(op)
    {
      MigrateStep(w, p, ref, target, q, op, true);
      WorkingStep(w, p, ref, target, q, op);
      if op.MigrateWipe? { WipeSucceeds(w, p, ref, target, q, op); }
      OneMoreStep(w, p, MigrateOp(ref, target), ups, true);
      var (effect, next) := OpStep(w, q, op, true);
      q, op, ups := ApplyPlain(q, effect), next, ups + [true];
    }
  }

  /** Migrate is crash-safe, for every source and target and whichever of its calls fail: stopped after any
      number of its steps it leaves every readable value readable and equal, if and only if every other
      row survives the copy it overwrites and the one it wipes. */
  lemma MigrateIsCrashSafe(w: World, p: Plain, ref: string, target: Backend)
    ensures (forall ups :: Keeps(w, p, OpRun(w, p, MigrateOp(ref, target), ups).0))
            <==> (Movable(w, p, ref, target) ==> AllSurvive(w, p, ref, target))
  {
    if Movable(w, p, ref, target) && !AllSurvive(w, p, ref, target) {
      var q, ups := WholeMigrate(w, p, ref, target);
      var o :| o in p.rows && o != ref && PlainResolve(w, p, o).Value? && !Survives(w, p, ref, target, o);
      StageOther(w, p, ref, target, q, WipedOut, o);
      assert !Keeps(w, p, OpRun(w, p, MigrateOp(ref, target), ups).0);
    } else {
      forall ups ensures Keeps(w, p, OpRun(w, p, MigrateOp(ref, target), ups).0) {
        var (q, op) := OpRun(w, p, MigrateOp(ref, target), ups);
        MigrateRun(w, p, ref, target, p, MigrateOp(ref, target), ups);
        MigrateAtKeeps(w, p, ref, target, q, op);
      }
    }
  }

  /** A whole migration, every call working, takes the values of exactly the rows that do not survive it. */
  lemma MigrateLosesExactly(w: World, p: Plain, ref: string, target: Backend, o: string)
    requires Movable(w, p, ref, target) && o != ref && o in p.rows && PlainResolve(w, p, o).Value?
    ensures exists ups, q ::
              && OpRun(w, p, MigrateOp(ref, target), ups) == (q, Finished(true))
              && (PlainResolve(w, q, o) == PlainResolve(w, p, o) <==> Survives(w, p, ref, target, o))
  {
    var q, ups := WholeMigrate(w, p, ref, target);
    StageOther(w, p, ref, target, q, WipedOut, o);
  }

  /** A Migrate that reports success has left the row at its target; one that fails, and a stopped one, has
      it here or there; and no backend's login secret ever leaves db storage. */
  lemma MigrateEnds(w: World, p: Plain, ref: string, target: Backend, ups: seq<bool>)
    ensures var (q, op) := OpRun(w, p, MigrateOp(ref, target), ups);
            && (op == Finished(true) ==> ref in q.rows && RowBackend(q.rows[ref]) == target)
            && (forall o | o != ref :: o in p.rows <==> o in q.rows)
            && (forall o | o != ref && o in p.rows :: q.rows[o] == p.rows[o])
            && (ref in p.rows ==> ref in q.rows && (q.rows[ref] == p.rows[ref] || RowBackend(q.rows[ref]) == target))
            && (forall l | l in BootstrapRefs(p.cfg) + LoginRefs(p.cfg) && l in p.rows && p.rows[l].Held? ::
                  l in q.rows && q.rows[l] == p.rows[l])
  {
    MigrateRun(w, p, ref, target, p, MigrateOp(ref, target), ups);
    var (q, op) := OpRun(w, p, MigrateOp(ref, target), ups);
    MigrateRows(w, p, ref, target, q, op);
    BootstrapCoversLogins(p.cfg);
  }

  lemma MigrateRows(w: World, p: Plain, ref: string, target: Backend, q: Plain, op: Op)
    requires MigrateAt(w, p, ref, target, q, op)
    ensures op == Finished(true) ==> ref in q.rows && RowBackend(q.rows[ref]) == target
    ensures q.rows == p.rows
            || (ref in q.rows && q.rows == p.rows[ref := q.rows[ref]] && RowBackend(q.rows[ref]) == target
                && ref in p.rows && RowBackend(p.rows[ref]) != target
                && (target != DB ==> ref !in BootstrapRefs(p.cfg) && ValidExternalRefName(ref)))
  {
    var stage := StageAt(w, p, ref, target, q, op);
  }

  // ---------------------------------------------------------------- Migrate among readers

  /** Events of one Migrate, of readers, and of nobody else. */
  predicate OnlyMigrate(k: nat, e: Event) {
    match e
    case Act(j, _, _) => j == k
    case Look(_, _) => true
    case Fetch(_, _) => true
    case _ => !Plainly(e)
  }

  lemma {:induction false} MigrateAmongReads(w: World, p: Plain, ref: string, target: Backend, k: nat, s: PlainSystem,
                                             es: seq<Event>)
    requires k in s.ops && MigrateAt(w, p, ref, target, s.p, s.ops[k])
    requires forall i | 0 <= i < |es| :: Plainly(es[i]) && OnlyMigrate(k, es[i])
    requires PlainRun(w, s, es).Some?
    ensures var t := PlainRun(w, s, es).value;
            k in t.ops && MigrateAt(w, p, ref, target, t.p, t.ops[k])
    decreases |es|
  {
    if es != [] {
      match es[0] {
        case Act(_, up, _) => MigrateStep(w, p, ref, target, s.p, s.ops[k], up);
        case Fetch(j, up) => if up { UsedKeepsMigrate(w, p, ref, target, s.p, s.ops[k], s.readers[j].backend); }
        case _ =>
      }
      MigrateAmongReads(w, p, ref, target, k, PlainNext(w, s, es[0]).value, es[1..]);
    }
  }

  lemma {:induction false} VisibleAreOf(es: seq<Event>, k: nat)
    requires forall i | 0 <= i < |es| :: OnlyMigrate(k, es[i])
    ensures forall i | 0 <= i < |Visible(es)| :: Plainly(Visible(es)[i]) && OnlyMigrate(k, Visible(es)[i])
    decreases |es|
  {
    if es != [] { VisibleAreOf(es[1..], k); }
  }

  /** The same on the sealed table, with any readers and sweeps reading, logging in and resealing around it. */
  lemma MigrateIsCrashSafeAmongReaders(w: World, s: System, k: nat, ref: string, target: Backend, es: seq<Event>)
    requires Lawful(w) && ResealsOk(w, s) && k in s.ops && s.ops[k] == MigrateOp(ref, target)
    requires var p := View(w, s.store); Movable(w, p, ref, target) ==> AllSurvive(w, p, ref, target)
    requires forall i | 0 <= i < |es| :: OnlyMigrate(k, es[i])
    requires Run(w, s, es).Some?
    ensures forall o | Answer(w, s.store, o).Value? ::
              Answer(w, Run(w, s, es).value.store, o) == Answer(w, s.store, o)
  {
    var t, p := Run(w, s, es).value, View(w, s.store);
    RunRefines(w, s, es);
    VisibleAreOf(es, k);
    assert MigrateAt(w, p, ref, target, p, s.ops[k]);
    MigrateAmongReads(w, p, ref, target, k, PlainOf(w, s), Visible(es));
    MigrateAtKeeps(w, p, ref, target, View(w, t.store), t.ops[k]);
    forall o | Answer(w, s.store, o).Value? ensures Answer(w, t.store, o) == Answer(w, s.store, o) {
      ResolveSeesPlain(w, s.store, o);
      ResolveSeesPlain(w, t.store, o);
    }
  }

  // ---------------------------------------------------------------- Set

  /** Logging in to `b` has to read the row of `ref`; with a client cached, AWS reads none. */
  predicate Needs(cfg: Settings, client: Option<Client>, b: Backend, ref: string) {
    match b
    case Vault => cfg.vault.Some? && VaultLoginRef(cfg.vault.value) == ref
    case ASM => client.None? && AsmSettings(cfg).auth == "keys" && AsmLoginRef(AsmSettings(cfg)) == ref
    case DB => false
  }

  /** Where that login leads when the row holds `secret`. */
  function LoginBy(w: World, cfg: Settings, b: Backend, secret: string): Option<Site> {
    match b
    case Vault => if cfg.vault.Some? then VaultBy(w, cfg.vault.value, secret) else None
    case ASM => AsmBy(w, Client(AsmSettings(cfg), secret))
    case DB => None
  }

  lemma NeededLogin(w: World, p: Plain, b: Backend, ref: string)
    requires Needs(p.cfg, p.client, b, ref)
    ensures Login(w, p, b) == match DbSecret(p, ref) case Some(x) => LoginBy(w, p.cfg, b, x) case None => None
  {
  }

  /** A login stays as long as the row it needs does. */
  lemma OtherLogin(w: World, p: Plain, q: Plain, b: Backend, ref: string)
    requires !Needs(p.cfg, p.client, b, ref) && q.cfg == p.cfg && q.client == p.client
    requires forall o | o != ref :: DbSecret(q, o) == DbSecret(p, o)
    ensures Login(w, q, b) == Login(w, p, b)
  {
  }

  /** A Set through vault that overwrites, with a pointer into vault, the very row vault is logged in with. */
  predicate LocksItselfOut(cfg: Settings, ref: string) {
    cfg.default == Vault && Needs(cfg, None, Vault, ref)
  }

  ghost predicate Writable(w: World, p: Plain, ref: string, v: string) {
    p.cfg.default == DB
    || (ValidExternalRefName(ref) && WriteExt(w, p, p.cfg.default, ExternalRef(ref), v).Some?)
  }

  function SetWritten(w: World, p: Plain, ref: string, v: string): Plain {
    var d := p.cfg.default;
    match WriteExt(w, p, d, ExternalRef(ref), v) case Some(x) => ApplyPlain(p, Reach(d, x)) case None => p
  }

  function SetDone(w: World, p: Plain, ref: string, v: string): Plain {
    var d := p.cfg.default;
    if d == DB then ApplyPlain(p, PutDb(ref, v))
    else ApplyPlain(SetWritten(w, p, ref, v), PutRef(ref, d, Pointer(d, ref)))
  }

  ghost predicate SetAt(w: World, p: Plain, ref: string, v: string, q: Plain, op: Op) {
    match op
    case SetOp(_, _) => q == p && op == SetOp(ref, v)
    case SetWrite(_, _, b) => q == p && op == SetWrite(ref, v, p.cfg.default)
    case SetPoint(_, b) =>
      && p.cfg.default != DB && Writable(w, p, ref, v) && q == SetWritten(w, p, ref, v)
      && op == SetPoint(ref, p.cfg.default)
    case Finished(ok) =>
      if ok then Writable(w, p, ref, v) && q == SetDone(w, p, ref, v)
      else || q == p || q == Used(p, p.cfg.default)
           || (p.cfg.default != DB && Writable(w, p, ref, v) && q == SetWritten(w, p, ref, v))
    case _ => false
  }

  lemma {:induction false} SetRun(w: World, p: Plain, ref: string, v: string, q: Plain, op: Op, ups: seq<bool>)
    requires SetAt(w, p, ref, v, q, op)
    ensures SetAt(w, p, ref, v, OpRun(w, q, op, ups).0, OpRun(w, q, op, ups).1)
    decreases |ups|
  {
    if ups != [] {
      var (effect, next) := OpStep(w, q, op, ups[0]);
      assert SetAt(w, p, ref, v, ApplyPlain(q, effect), next);
      SetRun(w, p, ref, v, ApplyPlain(q, effect), next, ups[1..]);
    }
  }

  /** What `o` answers once a Set of `ref` begun in `p` has written its object, but not the row. */
  function AnswerBetween(w: World, p: Plain, ref: string, v: string, o: string): Result {
    if p.cfg.default != DB && o in p.rows && Aims(w, p.rows[o], p.cfg.default, ref) then
      Outcome(Overwritten(w, p.cfg.default, p.rows[o].backendRef, v))
    else PlainResolve(w, p, o)
  }

  /** What any ref `o` answers after a successful Set of `ref` begun in `p`, with `client` as AWS's cached client:
      a backend whose login needs the row is locked, unless the new value is stored there to log in with; a row
      that aims at the object overwritten, and is still led to it, reads the new value. */
  function AnswerAfter(w: World, p: Plain, ref: string, v: string, client: Option<Client>, o: string): Result {
    var d, now := p.cfg.default, p.(client := client);
    if o == ref && d == DB then Value(v)
    else if o != ref && o !in p.rows then NotFound
    else match if o == ref then Points(d, Pointer(d, ref)) else p.rows[o]
      case Held(x) => Outcome(x)
      case Points(b, r) =>
        if Needs(p.cfg, client, b, ref) then
          (if d == DB then Outcome(ReadAt(w, p.ext, LoginBy(w, p.cfg, b, v), b, r)) else Failed)
        else if d != DB && Aims(w, Points(b, r), d, ref) && Login(w, now, d) == Login(w, p, d) then
          Outcome(Overwritten(w, d, r, v))
        else Outcome(ReadExt(w, now, b, r))
  }

  /** The client a Set leaves cached: one its own write has used. */
  function ClientAfter(p: Plain): Option<Client> {
    Used(p, p.cfg.default).client
  }

  /** A written object is what its name at its site reads, and nothing else changes. */
  lemma ReadAtWritten(w: World, ext: External, site: Site, b: Backend, ref: string, v: string, login: Option<Site>,
                      c: Backend, r: string)
    ensures ReadAt(w, ext[Place(site, OwnName(w, b, ref)) := Stored(b, v)], login, c, r)
            == if login == Some(site) && NameOf(w, c, r) == OwnName(w, b, ref)
               then Extract(w, Stored(b, v), SplitRef(r, DefaultField(c)).1) else ReadAt(w, ext, login, c, r)
  {
  }

  /** Vault's sites are not AWS's. */
  lemma SiteTells(w: World, p: Plain, q: Plain, b: Backend, c: Backend)
    requires Login(w, p, b).Some? && Login(w, q, c) == Login(w, p, b)
    ensures b == c
  {
  }

  lemma SetWrites(w: World, p: Plain, ref: string, v: string)
    requires p.cfg.default != DB && Writable(w, p, ref, v)
    ensures Login(w, p, p.cfg.default).Some?
    ensures var d, z := p.cfg.default, SetWritten(w, p, ref, v);
            && z.rows == p.rows && z.cfg == p.cfg && z.client == ClientAfter(p)
            && z.ext == p.ext[Place(Login(w, p, d).value, OwnName(w, d, ref)) := Stored(d, v)]
  {
  }

  /** The login of a pointer's backend after the Set. */
  lemma LoginAfter(w: World, p: Plain, ref: string, v: string, client: Option<Client>, b: Backend)
    requires Writable(w, p, ref, v)
    ensures Login(w, SetDone(w, p, ref, v).(client := client), b)
            == if !Needs(p.cfg, client, b, ref) then Login(w, p.(client := client), b)
               else if p.cfg.default == DB then LoginBy(w, p.cfg, b, v) else None
  {
    var now, q := p.(client := client), SetDone(w, p, ref, v).(client := client);
    if p.cfg.default != DB { SetWrites(w, p, ref, v); }
    if Needs(p.cfg, client, b, ref) { NeededLogin(w, q, b, ref); } else { OtherLogin(w, now, q, b, ref); }
  }

  lemma ReadAfterSet(w: World, p: Plain, ref: string, v: string, client: Option<Client>, b: Backend, r: string)
    requires p.cfg.default != DB && Writable(w, p, ref, v) && !Needs(p.cfg, client, b, ref)
    ensures var d, now := p.cfg.default, p.(client := client);
            ReadExt(w, SetDone(w, p, ref, v).(client := client), b, r)
            == if Aims(w, Points(b, r), d, ref) && Login(w, now, d) == Login(w, p, d) then Overwritten(w, d, r, v)
               else ReadExt(w, now, b, r)
  {
    var d, now := p.cfg.default, p.(client := client);
    SetWrites(w, p, ref, v);
    LoginAfter(w, p, ref, v, client, b);
    ReadAtWritten(w, p.ext, Login(w, p, d).value, d, ref, v, Login(w, now, b), b, r);
    if Login(w, now, b) == Login(w, p, d) { SiteTells(w, p, now, d, b); }
  }

  /** The finished Set's answers, whatever client is cached by the time of the read. */
  lemma AnswersAfter(w: World, p: Plain, ref: string, v: string, client: Option<Client>, o: string)
    requires Writable(w, p, ref, v)
    ensures PlainResolve(w, SetDone(w, p, ref, v).(client := client), o) == AnswerAfter(w, p, ref, v, client, o)
  {
    var d, q := p.cfg.default, SetDone(w, p, ref, v).(client := client);
    if d != DB { SetWrites(w, p, ref, v); }
    if o in q.rows && q.rows[o].Points? {
      var b, r := q.rows[o].backend, q.rows[o].backendRef;
      LoginAfter(w, p, ref, v, client, b);
      if d != DB && !Needs(p.cfg, client, b, ref) { ReadAfterSet(w, p, ref, v, client, b, r); }
    }
  }

  /** A finished Set: every ref answers exactly this. */
  lemma SetTakesExactly(w: World, p: Plain, ref: string, v: string, ups: seq<bool>, o: string)
    requires OpRun(w, p, SetOp(ref, v), ups).1 == Finished(true)
    ensures PlainResolve(w, OpRun(w, p, SetOp(ref, v), ups).0, o) == AnswerAfter(w, p, ref, v, ClientAfter(p), o)
  {
    SetRun(w, p, ref, v, p, SetOp(ref, v), ups);
    var q := SetDone(w, p, ref, v);
    if p.cfg.default != DB { SetWrites(w, p, ref, v); }
    assert q.(client := ClientAfter(p)) == q;
    AnswersAfter(w, p, ref, v, ClientAfter(p), o);
  }

  /** The pointer the Set stores answers what it wrote, unless its login is lost or leads elsewhere. */
  lemma OwnAfter(w: World, p: Plain, ref: string, v: string, client: Option<Client>)
    requires Writable(w, p, ref, v)
    ensures var d, now := p.cfg.default, p.(client := client);
            AnswerAfter(w, p, ref, v, client, ref)
            == if d == DB then Value(v)
               else if Needs(p.cfg, client, d, ref) then Failed
               else if Login(w, now, d) == Login(w, p, d) then Value(v)
               else Outcome(ReadExt(w, now, d, Pointer(d, ref)))
  {
    if p.cfg.default != DB { PointerAims(w, p.cfg.default, ref, v); }
  }

  /** A Set that reports success is what Resolve then answers, exactly when it did not overwrite vault's own
      login row with a pointer into vault. */
  lemma SetThenResolve(w: World, p: Plain, ref: string, v: string, ups: seq<bool>)
    requires OpRun(w, p, SetOp(ref, v), ups).1 == Finished(true)
    ensures PlainResolve(w, OpRun(w, p, SetOp(ref, v), ups).0, ref) == Value(v) <==> !LocksItselfOut(p.cfg, ref)
  {
    SetRun(w, p, ref, v, p, SetOp(ref, v), ups);
    SetTakesExactly(w, p, ref, v, ups, ref);
    OwnAfter(w, p, ref, v, ClientAfter(p));
    UsingIsUnseen(w, p, p.cfg.default);
    if p.cfg.default == Vault { assert ClientAfter(p) == p.client; }
  }

  /** After a restart the AWS client is built anew, from the settings and the key of that moment, whatever client
      was cached before.  Then every ref answers exactly this; and `ref` itself answers the new value exactly if
      its own login was not locked and the new client reaches the account written to, or an equal value. */
  lemma SetThenRestart(w: World, p: Plain, ref: string, v: string, ups: seq<bool>)
    requires OpRun(w, p, SetOp(ref, v), ups).1 == Finished(true)
    ensures var d, now := p.cfg.default, p.(client := None);
            var q := OpRun(w, p, SetOp(ref, v), ups).0.(client := None);
            && (forall o :: PlainResolve(w, q, o) == AnswerAfter(w, p, ref, v, None, o))
            && (PlainResolve(w, q, ref) == Value(v) <==>
                  || d == DB
                  || (!Needs(p.cfg, None, d, ref)
                      && (Login(w, now, d) == Login(w, p, d) || ReadExt(w, now, d, Pointer(d, ref)) == Some(v))))
  {
    SetRun(w, p, ref, v, p, SetOp(ref, v), ups);
    var q := SetDone(w, p, ref, v).(client := None);
    forall o ensures PlainResolve(w, q, o) == AnswerAfter(w, p, ref, v, None, o) {
      AnswersAfter(w, p, ref, v, None, o);
    }
    OwnAfter(w, p, ref, v, None);
  }

  /** Through an external backend a Set takes a working login away exactly if that login needs the row: every
      secret kept in the backend it opens then stops resolving. */
  lemma SetLocksOut(w: World, p: Plain, ref: string, v: string, ups: seq<bool>, b: Backend)
    requires OpRun(w, p, SetOp(ref, v), ups).1 == Finished(true) && p.cfg.default != DB && Login(w, p, b).Some?
    ensures var q := OpRun(w, p, SetOp(ref, v), ups).0;
            && (Login(w, q, b).None? <==> Needs(p.cfg, ClientAfter(p), b, ref))
            && (Needs(p.cfg, ClientAfter(p), b, ref) ==>
                  forall o | o in q.rows && q.rows[o].Points? && q.rows[o].backend == b ::
                    PlainResolve(w, q, o) == Failed)
  {
    SetRun(w, p, ref, v, p, SetOp(ref, v), ups);
    var q := SetDone(w, p, ref, v);
    SetWrites(w, p, ref, v);
    assert q.(client := ClientAfter(p)) == q;
    assert p.(client := ClientAfter(p)) == Used(p, p.cfg.default);
    LoginAfter(w, p, ref, v, ClientAfter(p), b);
    UsingIsUnseen(w, p, p.cfg.default);
  }

  /** The row of `o` is left alone by a Set of `ref`: what it reads of the object overwritten is what it read,
      and if its login needs the row of `ref`, so is what it reads by the login that is left. */
  predicate SetSpares(w: World, p: Plain, ref: string, v: string, o: string) {
    o in p.rows && p.rows[o].Points? ==>
      var b, r, d := p.rows[o].backend, p.rows[o].backendRef, p.cfg.default;
      && (d != DB && Aims(w, p.rows[o], d, ref) ==> Overwritten(w, d, r, v) == ReadExt(w, p, b, r))
      && (Needs(p.cfg, ClientAfter(p), b, ref) ==>
            ReadExt(w, p, b, r) == if d == DB then ReadAt(w, p.ext, LoginBy(w, p.cfg, b, v), b, r) else None)
  }

  lemma SparesExactly(w: World, p: Plain, ref: string, v: string, o: string)
    requires Writable(w, p, ref, v) && o != ref
    ensures SetSpares(w, p, ref, v, o) <==>
            && AnswerBetween(w, p, ref, v, o) == PlainResolve(w, p, o)
            && AnswerAfter(w, p, ref, v, ClientAfter(p), o) == PlainResolve(w, p, o)
  {
    var d := p.cfg.default;
    assert p.(client := ClientAfter(p)) == Used(p, d);
    UsingIsUnseen(w, p, d);
    if o in p.rows && p.rows[o].Points? {
      ReadFrame(w, p, Used(p, d), p.rows[o].backend, p.rows[o].backendRef);
    }
  }

  /** What a pointer reads once the Set's object is written. */
  lemma ReadBetween(w: World, p: Plain, ref: string, v: string, b: Backend, r: string)
    requires p.cfg.default != DB && Writable(w, p, ref, v)
    ensures ReadExt(w, SetWritten(w, p, ref, v), b, r)
            == if Aims(w, Points(b, r), p.cfg.default, ref) then Overwritten(w, p.cfg.default, r, v)
               else ReadExt(w, p, b, r)
  {
    var d, z := p.cfg.default, SetWritten(w, p, ref, v);
    SetWrites(w, p, ref, v);
    UsingIsUnseen(w, p, d);
    LoginExt(w, Used(p, d), z.ext);
    assert z == Used(p, d).(ext := z.ext);
    ReadAtWritten(w, p.ext, Login(w, p, d).value, d, ref, v, Login(w, p, b), b, r);
    if Login(w, p, b) == Login(w, p, d) { SiteTells(w, p, p, d, b); }
  }

  lemma AnswersBetween(w: World, p: Plain, ref: string, v: string, o: string)
    requires p.cfg.default != DB && Writable(w, p, ref, v)
    ensures PlainResolve(w, SetWritten(w, p, ref, v), o) == AnswerBetween(w, p, ref, v, o)
  {
    SetWrites(w, p, ref, v);
    if o in p.rows && p.rows[o].Points? { ReadBetween(w, p, ref, v, p.rows[o].backend, p.rows[o].backendRef); }
  }

  /** Wherever a Set is stopped, another ref answers as before, as with the object written, or as with the row
      flipped too. */
  lemma SetAtAnswers(w: World, p: Plain, ref: string, v: string, q: Plain, op: Op, o: string)
    requires SetAt(w, p, ref, v, q, op)
    ensures || PlainResolve(w, q, o) == PlainResolve(w, p, o)
            || (Writable(w, p, ref, v) && PlainResolve(w, q, o) in
                  {AnswerBetween(w, p, ref, v, o), AnswerAfter(w, p, ref, v, ClientAfter(p), o)})
  {
    UsingIsUnseen(w, p, p.cfg.default);
    if Writable(w, p, ref, v) {
      if p.cfg.default != DB { SetWrites(w, p, ref, v); AnswersBetween(w, p, ref, v, o); }
      var done := SetDone(w, p, ref, v);
      assert done.(client := ClientAfter(p)) == done;
      AnswersAfter(w, p, ref, v, ClientAfter(p), o);
    }
  }

  lemma WholeSet(w: World, p: Plain, ref: string, v: string)
    requires Writable(w, p, ref, v)
    ensures OpRun(w, p, SetOp(ref, v), [true, true, true]) == (SetDone(w, p, ref, v), Finished(true))
    ensures p.cfg.default != DB ==> OpRun(w, p, SetOp(ref, v), [true, true]).0 == SetWritten(w, p, ref, v)
  {
  }

  /** A Set, stopped anywhere and whichever of its calls fail, leaves another answer alone if and only if it
      cannot write at all or spares that row. */
  lemma SetLeavesOthers(w: World, p: Plain, ref: string, v: string, o: string)
    requires o != ref
    ensures (forall ups :: PlainResolve(w, OpRun(w, p, SetOp(ref, v), ups).0, o) == PlainResolve(w, p, o))
            <==> (Writable(w, p, ref, v) ==> SetSpares(w, p, ref, v, o))
  {
    if Writable(w, p, ref, v) {
      SparesExactly(w, p, ref, v, o);
      WholeSet(w, p, ref, v);
      SetTakesExactly(w, p, ref, v, [true, true, true], o);
      if p.cfg.default != DB { AnswersBetween(w, p, ref, v, o); }
    }
    if Writable(w, p, ref, v) ==> SetSpares(w, p, ref, v, o) {
      forall ups ensures PlainResolve(w, OpRun(w, p, SetOp(ref, v), ups).0, o) == PlainResolve(w, p, o) {
        var (q, op) := OpRun(w, p, SetOp(ref, v), ups);
        SetRun(w, p, ref, v, p, SetOp(ref, v), ups);
        SetAtAnswers(w, p, ref, v, q, op, o);
      }
    }
  }

  // ---------------------------------------------------------------- Delete

  /** Settings as SetBackendConfig stores them: approle names its secret_id ref. */
  predicate Normalized(cfg: Settings) {
    cfg.vault.Some? && cfg.vault.value.auth == "approle" ==> cfg.vault.value.secretIdRef != ""
  }

  function Gone(w: World, p: Plain, ref: string): Plain
    requires OwnsCopy(p, ref)
  {
    ApplyPlain(p, Away(w, p, p.rows[ref].backend, ref))
  }

  ghost predicate DeleteAt(w: World, p: Plain, ref: string, q: Plain, op: Op) {
    var wiped := OwnsCopy(p, ref) && q == Gone(w, p, ref);
    var allowed := ref !in BootstrapRefs(p.cfg);
    match op
    case DeleteOp(_) => q == p && op == DeleteOp(ref)
    case DeleteCheck(_, _) => q == p && op == DeleteCheck(ref, VaultRefs(p.cfg))
    case DeleteLook(_) => q == p && allowed && op == DeleteLook(ref)
    case DeleteWipe(_, b) => q == p && allowed && OwnsCopy(p, ref) && op == DeleteWipe(ref, p.rows[ref].backend)
    case DeleteLast(_) => allowed && op == DeleteLast(ref) && (q == p || wiped)
    case Finished(ok) =>
      if ok then
        && allowed
        && (q == ApplyPlain(p, RemoveRow(ref))
            || (OwnsCopy(p, ref) && q == ApplyPlain(Gone(w, p, ref), RemoveRow(ref))))
      else q == p || (wiped && allowed)
    case _ => false
  }

  lemma {:induction false} DeleteRun(w: World, p: Plain, ref: string, q: Plain, op: Op, ups: seq<bool>)
    requires DeleteAt(w, p, ref, q, op)
    ensures DeleteAt(w, p, ref, OpRun(w, q, op, ups).0, OpRun(w, q, op, ups).1)
    decreases |ups|
  {
    if ups != [] {
      var (effect, next) := OpStep(w, q, op, ups[0]);
      assert DeleteAt(w, p, ref, ApplyPlain(q, effect), next);
      DeleteRun(w, p, ref, ApplyPlain(q, effect), next, ups[1..]);
    }
  }

  lemma GoneRead(w: World, p: Plain, ref: string, c: Backend, r: string)
    requires OwnsCopy(p, ref)
    ensures LoginsSame(w, p, Gone(w, p, ref))
    ensures ReadExt(w, Gone(w, p, ref), c, r)
            == if Aims(w, Points(c, r), p.rows[ref].backend, ref) then None else ReadExt(w, p, c, r)
  {
    var b := p.rows[ref].backend;
    UsingIsUnseen(w, p, b);
    LoginExt(w, Used(p, b), Gone(w, p, ref).ext);
    LoginExt(w, p, Gone(w, p, ref).ext);
    if DeleteExt(w, p, b, ExternalRef(ref)).Some? { ReadAfterDelete(w, p, b, ref, c, r); }
  }

  /** A Delete, finished or stopped anywhere, leaves every other answer alone unless the row aims at the copy
      it takes along; a login ref is refused with nothing changed; one that succeeds has removed the row. */
  lemma DeleteIsConfined(w: World, p: Plain, ref: string, ups: seq<bool>, o: string)
    requires Normalized(p.cfg) && o != ref
    requires OwnsCopy(p, ref) && o in p.rows ==> !Aims(w, p.rows[o], p.rows[ref].backend, ref)
    ensures var (q, op) := OpRun(w, p, DeleteOp(ref), ups);
            && PlainResolve(w, q, o) == PlainResolve(w, p, o)
            && (ref in BootstrapRefs(p.cfg) ==> q == p && op != Finished(true))
            && (op == Finished(true) ==> PlainResolve(w, q, ref) == NotFound)
  {
    DeleteRun(w, p, ref, p, DeleteOp(ref), ups);
    var q := OpRun(w, p, DeleteOp(ref), ups).0;
    if q != p { DeleteOther(w, p, ref, q, o); }
  }

  lemma DeleteOther(w: World, p: Plain, ref: string, q: Plain, o: string)
    requires Normalized(p.cfg) && o != ref && ref !in BootstrapRefs(p.cfg)
    requires || q == ApplyPlain(p, RemoveRow(ref))
             || (OwnsCopy(p, ref) && (q == Gone(w, p, ref) || q == ApplyPlain(Gone(w, p, ref), RemoveRow(ref))))
    requires OwnsCopy(p, ref) && o in p.rows ==> !Aims(w, p.rows[o], p.rows[ref].backend, ref)
    ensures PlainResolve(w, q, o) == PlainResolve(w, p, o)
  {
    DeletableIsNoLogin(p.cfg, ref);
    if q == ApplyPlain(p, RemoveRow(ref)) {
      RemovedOther(w, p, ref, o);
    } else {
      var c := Gone(w, p, ref);
      if o in p.rows && p.rows[o].Points? { GoneRead(w, p, ref, p.rows[o].backend, p.rows[o].backendRef); }
      if q != c { RemovedOther(w, c, ref, o); }
    }
  }

  lemma DeletableIsNoLogin(cfg: Settings, ref: string)
    requires Normalized(cfg) && ref !in BootstrapRefs(cfg)
    ensures ref !in LoginRefs(cfg)
  {
    BootstrapCoversLogins(cfg);
  }

  lemma RemovedOther(w: World, c: Plain, ref: string, o: string)
    requires o != ref && ref !in LoginRefs(c.cfg)
    ensures PlainResolve(w, ApplyPlain(c, RemoveRow(ref)), o) == PlainResolve(w, c, o)
  {
    var q := ApplyPlain(c, RemoveRow(ref));
    LoginApart(w, c, q, ref);
    if o in c.rows { AnswerFrame(w, c, q, o); }
  }

  // ---------------------------------------------------------------- pointers stay apart

  /** Names this store makes up name different objects for different refs. */
  ghost predicate OwnNames(w: World) {
    forall b, x, y | ValidExternalRefName(x) && ValidExternalRefName(y) && x != y ::
      OwnName(w, b, x) != OwnName(w, b, y)
  }

  /** No row aims at the object kept for another ref. */
  ghost predicate Tidy(w: World, p: Plain) {
    forall o, x, b | o in p.rows && x != o && ValidExternalRefName(x) :: !Aims(w, p.rows[o], b, x)
  }

  predicate OpOk(op: Op) {
    && (op.SetPoint? ==> op.backend != DB && ValidExternalRefName(op.ref))
    && (op.MigratePoint? ==> op.target != DB && ValidExternalRefName(op.ref))
  }

  /** Under tidy pointers every row survives every migration. */
  lemma TidySurvives(w: World, p: Plain, ref: string, target: Backend)
    requires Tidy(w, p) && ValidExternalRefName(ref) && ref in p.rows && PlainResolve(w, p, ref).Value?
    ensures AllSurvive(w, p, ref, target)
  {
  }

  lemma OpStepKeepsTidy(w: World, p: Plain, op: Op, up: bool)
    requires OwnNames(w) && Tidy(w, p) && OpOk(op)
    ensures Tidy(w, ApplyPlain(p, OpStep(w, p, op, up).0)) && OpOk(OpStep(w, p, op, up).1)
  {
    var e := OpStep(w, p, op, up).0;
    var q := ApplyPlain(p, e);
    forall o, x, b | o in q.rows && x != o && ValidExternalRefName(x) ensures !Aims(w, q.rows[o], b, x) {
      if e.PutRef? && o == e.ref { PointerAims(w, e.backend, o, ""); }
    }
  }

  /** Over every run the operations never make one ref's pointer aim at another ref's object, and by then no
      row can lose its value to a Migrate of another. */
  lemma {:induction false} RunKeepsTidy(w: World, s: PlainSystem, es: seq<Event>)
    requires OwnNames(w) && Tidy(w, s.p) && (forall k | k in s.ops :: OpOk(s.ops[k])) && PlainRun(w, s, es).Some?
    ensures var t := PlainRun(w, s, es).value;
            && Tidy(w, t.p) && (forall k | k in t.ops :: OpOk(t.ops[k]))
            && forall ref, target | ValidExternalRefName(ref) && ref in t.p.rows && PlainResolve(w, t.p, ref).Value? ::
                 AllSurvive(w, t.p, ref, target)
    decreases |es|
  {
    if es == [] {
      forall ref, target | ValidExternalRefName(ref) && ref in s.p.rows && PlainResolve(w, s.p, ref).Value?
        ensures AllSurvive(w, s.p, ref, target)
      {
        TidySurvives(w, s.p, ref, target);
      }
    } else {
      if es[0].Act? { OpStepKeepsTidy(w, s.p, s.ops[es[0].k], es[0].up); }
      RunKeepsTidy(w, PlainNext(w, s, es[0]).value, es[1..]);
    }
  }
}
