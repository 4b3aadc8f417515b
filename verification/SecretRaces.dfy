/** Operations that meet (internal/secretstore/secretstore.go): one Migrate and one Set of the same ref in
    every interleaving, and a Resolve whose two reads have other operations between them. */
module SecretRaces {
  import opened Options
  import opened SecretStore
  import opened SecretMoves

  // ---------------------------------------------------------------- what a Migrate on its way will leave

  /** How far a Migrate is: 0 until it has read the row, 1 with a pointer to fetch, 2 with the value, 3 with
      the copy written, 4 with the row flipped, 5 done. */
  function Phase(op: Op): nat {
    match op
    case MigrateFetch(_, _, _, _, _) => 1
    case MigrateWrite(_, _, _, _) => 2
    case MigratePoint(_, _, _) => 3
    case MigrateWipe(_, _) => 4
    case Finished(_) => 5
    case _ => 0
  }

  /** The settings let this Migrate through: only a move into db storage takes a login's row. */
  predicate LetThrough(cfg: Settings, target: Backend, ref: string) {
    target != DB ==> ref !in BootstrapRefs(cfg)
  }

  /** A Migrate of `ref` that has somewhere to go, or has succeeded. */
  predicate OnItsWay(cfg: Settings, op: Op, ref: string) {
    match op
    case MigrateOp(r, _) => r == ref
    case MigrateCheck(r, t, refused) => r == ref && refused == VaultRefs(cfg)
    case MigrateRow(r, t) => r == ref && LetThrough(cfg, t, ref)
    case MigrateRead(r, t, s) => r == ref && s != t && LetThrough(cfg, t, ref)
    case MigrateFetch(r, t, s, _, _) => r == ref && s != t && LetThrough(cfg, t, ref)
    case MigrateWrite(r, t, s, _) => r == ref && s != t && LetThrough(cfg, t, ref)
    case MigratePoint(r, t, s) =>
      r == ref && s != t && t != DB && ValidExternalRefName(ref) && ref !in LoginRefs(cfg)
    case MigrateWipe(r, _) => r == ref
    case Finished(ok) => ok
    case _ => false
  }

  /** A ref that can be written through and is not refused is no login's. */
  lemma RefusedAreLogins(cfg: Settings, ref: string)
    requires ValidExternalRefName(ref) && ref !in BootstrapRefs(cfg)
    ensures ref !in LoginRefs(cfg)
  {
    BootstrapCoversLogins(cfg);
  }

  /** What `ref` answers once this Migrate, left alone, has succeeded; `wipe` is whether its wipe works. */
  function Leaves(w: World, q: Plain, ref: string, op: Op, wipe: bool): Result {
    match op
    case MigrateFetch(_, _, _, b, r) => Outcome(ReadExt(w, q, b, r))
    case MigrateWrite(_, _, _, x) => Value(x)
    case MigratePoint(_, t, _) => Outcome(ReadExt(w, q, t, Pointer(t, ref)))
    case MigrateWipe(_, s) =>
      if wipe && ref in q.rows && Aims(w, q.rows[ref], s, ref) then Failed else PlainResolve(w, q, ref)
    case _ => PlainResolve(w, q, ref)
  }

  /** What every pointer reads after a write-through. */
  lemma ThroughRead(w: World, q: Plain, b: Backend, ref: string, x: string, c: Backend, r: string)
    requires WriteExt(w, q, b, ExternalRef(ref), x).Some?
    ensures var z := ApplyPlain(q, Reach(b, WriteExt(w, q, b, ExternalRef(ref), x).value));
            && LoginsSame(w, q, z) && z.cfg == q.cfg && z.rows == q.rows
            && ReadExt(w, z, c, r)
                  == if Aims(w, Points(c, r), b, ref) then Overwritten(w, b, r, x) else ReadExt(w, q, c, r)
  {
    var y := WriteExt(w, q, b, ExternalRef(ref), x).value;
    UsingIsUnseen(w, q, b);
    LoginExt(w, Used(q, b), y);
    LoginExt(w, q, y);
    ReadAfterWrite(w, q, b, ref, x, c, r);
    ReadFrame(w, q.(ext := y), Used(q, b).(ext := y), c, r);
  }

  /** ... and after a best-effort delete. */
  lemma AwayRead(w: World, q: Plain, b: Backend, ref: string, c: Backend, r: string)
    ensures var z := ApplyPlain(q, Away(w, q, b, ref));
            && LoginsSame(w, q, z) && z.cfg == q.cfg && z.rows == q.rows
            && ReadExt(w, z, c, r) == if Aims(w, Points(c, r), b, ref) then None else ReadExt(w, q, c, r)
  {
    var z := ApplyPlain(q, Away(w, q, b, ref));
    UsingIsUnseen(w, q, b);
    LoginExt(w, Used(q, b), z.ext);
    LoginExt(w, q, z.ext);
    if b != DB && DeleteExt(w, q, b, ExternalRef(ref)).Some? { ReadAfterDelete(w, q, b, ref, c, r); }
    ReadFrame(w, q.(ext := z.ext), z, c, r);
  }

  lemma RowLogins(w: World, q: Plain, ref: string, e: Effect)
    requires ref !in LoginRefs(q.cfg) && (e.PutDb? || e.PutRef?) && e.ref == ref
    ensures LoginsSame(w, q, ApplyPlain(q, e)) && ApplyPlain(q, e).cfg == q.cfg
  {
    LoginApart(w, q, ApplyPlain(q, e), ref);
  }

  /** Each working step keeps what a Migrate will leave. */
  lemma LeavesStep(w: World, q: Plain, ref: string, op: Op, wipe: bool)
    requires OnItsWay(q.cfg, op, ref) && OpStep(w, q, op, op.MigrateWipe? ==> wipe).1 != Finished(false)
    ensures var (effect, next) := OpStep(w, q, op, op.MigrateWipe? ==> wipe);
            && OnItsWay(q.cfg, next, ref) && ApplyPlain(q, effect).cfg == q.cfg
            && Leaves(w, ApplyPlain(q, effect), ref, next, wipe) == Leaves(w, q, ref, op, wipe)
  {
    match op
    case MigrateFetch(_, _, _, b, _) => UsingIsUnseen(w, q, b);
    case MigrateWrite(_, t, _, x) => LeavesWrite(w, q, ref, op, wipe);
    case MigratePoint(_, t, _) => LeavesPoint(w, q, ref, op, wipe);
    case MigrateWipe(_, s) => LeavesWipe(w, q, ref, s, wipe);
    case _ =>
  }

  lemma LeavesPoint(w: World, q: Plain, ref: string, op: Op, wipe: bool)
    requires OnItsWay(q.cfg, op, ref) && op.MigratePoint?
    ensures var (effect, next) := OpStep(w, q, op, true);
            && OnItsWay(q.cfg, next, ref) && ApplyPlain(q, effect).cfg == q.cfg
            && Leaves(w, ApplyPlain(q, effect), ref, next, wipe) == Leaves(w, q, ref, op, wipe)
  {
    var e := PutRef(ref, op.target, Pointer(op.target, ref));
    RowLogins(w, q, ref, e);
    ReadFrame(w, q, ApplyPlain(q, e), op.target, Pointer(op.target, ref));
  }

  lemma LeavesWrite(w: World, q: Plain, ref: string, op: Op, wipe: bool)
    requires OnItsWay(q.cfg, op, ref) && op.MigrateWrite? && OpStep(w, q, op, true).1 != Finished(false)
    ensures var (effect, next) := OpStep(w, q, op, true);
            && OnItsWay(q.cfg, next, ref) && ApplyPlain(q, effect).cfg == q.cfg
            && Leaves(w, ApplyPlain(q, effect), ref, next, wipe) == Value(op.value)
  {
    if op.target != DB {
      RefusedAreLogins(q.cfg, ref);
      PointerAims(w, op.target, ref, op.value);
      ThroughRead(w, q, op.target, ref, op.value, op.target, Pointer(op.target, ref));
    }
  }

  lemma LeavesWipe(w: World, q: Plain, ref: string, s: Backend, wipe: bool)
    ensures var z := if wipe then ApplyPlain(q, Away(w, q, s, ref)) else q;
            z.cfg == q.cfg && PlainResolve(w, z, ref) == Leaves(w, q, ref, MigrateWipe(ref, s), wipe)
  {
    var r := if ref in q.rows && q.rows[ref].Points? then q.rows[ref].backendRef else "";
    var c := if ref in q.rows && q.rows[ref].Points? then q.rows[ref].backend else DB;
    AwayRead(w, q, s, ref, c, r);
  }

  // ---------------------------------------------------------------- what the Set's two moments decide

  /** A Migrate to `target` and a Set of `v` through `default` that meet: the row they find and its backend
      (`target` when there is no row: nothing to move), the Migrate's phase `a` when the Set writes, the value `m`
      the Migrate carries, whether its wipe works, and whether the Set overwrites vault's own login. */
  datatype Meet = Meet(ref: string, target: Backend, v: string, default: Backend, source: Backend, row: PlainRow,
                       a: nat, m: Option<string>, wipe: bool, locks: bool)

  /** What the Migrate carries: the old value; but if it fetches after the Set's write, what its pointer reads by
      then, in the object the Set has overwritten or by the login it has stored. */
  function Carried(w: World, p: Plain, ref: string, v: string, a: nat): Option<string> {
    if ref !in p.rows then None
    else match p.rows[ref]
      case Held(x) => x
      case Points(b, r) =>
        var d := p.cfg.default;
        if a <= 1 && d != DB && Aims(w, Points(b, r), d, ref) then Overwritten(w, d, r, v)
        else if a == 1 && d == DB && Needs(p.cfg, p.client, b, ref) then
          ReadAt(w, p.ext, LoginBy(w, p.cfg, b, v), b, r)
        else ReadExt(w, p, b, r)
  }

  function MeetOf(w: World, p: Plain, ref: string, target: Backend, v: string, a: nat, wipe: bool): Meet {
    Meet(ref, target, v, p.cfg.default, if ref in p.rows then RowBackend(p.rows[ref]) else target,
         if ref in p.rows then p.rows[ref] else Held(None), a, Carried(w, p, ref, v, a), wipe,
         LocksItselfOut(p.cfg, ref))
  }

  /** What `ref` answers when both have succeeded; `c` is the Migrate's phase when the Set flips the row. */
  function Decided(k: Meet, c: nat): Result {
    if k.locks then Failed
    else if c == 0 || k.source == k.target then Value(k.v)
    else if k.default == k.target && k.default != DB then (if k.a <= 2 then Outcome(k.m) else Value(k.v))
    else if c <= 3 then Outcome(k.m)
    else if k.default == k.source && k.default != DB && k.a <= 4 && k.wipe then Failed
    else Value(k.v)
  }

  /** The Migrate has something to move. */
  predicate Moving(p: Plain, ref: string, target: Backend) {
    ref in p.rows && RowBackend(p.rows[ref]) != target
  }

  ghost predicate External(k: Meet) {
    && k.default != DB && k.source != k.target && k.source == RowBackend(k.row) && ValidExternalRefName(k.ref)
  }

  /** What the pointer the Set stores reads, between its write and its flip. */
  function DefaultReads(k: Meet, phase: nat): Option<string> {
    if k.default == k.target && k.a <= 2 && phase >= 3 then k.m
    else if k.default == k.source && k.a <= 4 && phase == 5 && k.wipe then None
    else Some(k.v)
  }

  /** The Migrate's own variables. */
  ghost predicate Carries(k: Meet, op: Op) {
    match op
    case MigrateOp(_, t) => t == k.target
    case MigrateCheck(_, t, _) => t == k.target
    case MigrateRow(_, t) => t == k.target
    case MigrateRead(_, t, s) => t == k.target && s == k.source
    case MigrateFetch(_, t, s, b, r) => t == k.target && s == k.source && k.row == Points(b, r)
    case MigrateWrite(_, t, s, x) => t == k.target && s == k.source && k.m == Some(x)
    case MigratePoint(_, t, s) => t == k.target && s == k.source
    case MigrateWipe(_, s) => s == k.source
    case _ => true
  }

  /** The store between the Set's write and its flip. */
  ghost predicate Between(w: World, k: Meet, q: Plain, op: Op) {
    && OnItsWay(q.cfg, op, k.ref) && k.a <= Phase(op) && Carries(k, op)
    && k.default == q.cfg.default && k.locks == LocksItselfOut(q.cfg, k.ref)
    && Login(w, q, k.default).Some? && (k.default == ASM ==> q.client.Some?)
    && ReadExt(w, q, k.default, Pointer(k.default, k.ref)) == DefaultReads(k, Phase(op))
    && (Phase(op) <= 3 ==> k.ref in q.rows && q.rows[k.ref] == k.row)
    && (Phase(op) <= 1 ==>
          match k.row case Held(value) => value == k.m case Points(b, r) => ReadExt(w, q, b, r) == k.m)
    && (op.MigratePoint? ==>
          ReadExt(w, q, k.target, Pointer(k.target, k.ref))
          == if k.default == k.target && k.a == 3 then Some(k.v) else k.m)
  }

  /** What a Migrate alone has done so far, as far as `ref` can tell. */
  lemma AtFacts(w: World, p: Plain, ref: string, target: Backend, q: Plain, op: Op)
    requires Moving(p, ref, target) && MigrateAt(w, p, ref, target, q, op) && op != Finished(false)
    ensures q.cfg == p.cfg && OnItsWay(p.cfg, op, ref)
    ensures Phase(op) <= 3 ==> LoginsSame(w, p, q) && ref in q.rows && q.rows[ref] == p.rows[ref]
    ensures Phase(op) <= 1 ==> q.rows == p.rows && q.ext == p.ext
    ensures op.MigrateWrite? || op.MigratePoint? ==> PlainResolve(w, p, ref).Value?
    ensures op.MigrateWrite? ==> op.value == PlainResolve(w, p, ref).v
    ensures op.MigratePoint? ==> ReadExt(w, q, target, Pointer(target, ref)) == Some(PlainResolve(w, p, ref).v)
  {
    if op.MigratePoint? {
      RefusedAreLogins(p.cfg, ref);
      PointerAims(w, target, ref, PlainResolve(w, p, ref).v);
      StageRead(w, p, ref, target, q, CopiedTo, target, Pointer(target, ref));
    }
  }

  lemma AtCarries(w: World, p: Plain, ref: string, target: Backend, v: string, wipe: bool, q: Plain, op: Op)
    requires Moving(p, ref, target) && MigrateAt(w, p, ref, target, q, op) && op != Finished(false)
    ensures Carries(MeetOf(w, p, ref, target, v, Phase(op), wipe), op)
  {
  }

  /** The Set writes while the Migrate is where it is. */
  lemma BetweenStarts(w: World, p: Plain, ref: string, target: Backend, v: string, wipe: bool, q: Plain, op: Op)
    requires Moving(p, ref, target) && p.cfg.default != DB && ValidExternalRefName(ref)
    requires MigrateAt(w, p, ref, target, q, op) && op != Finished(false)
    requires WriteExt(w, q, p.cfg.default, ExternalRef(ref), v).Some?
    ensures var z := ApplyPlain(q, Reach(p.cfg.default, WriteExt(w, q, p.cfg.default, ExternalRef(ref), v).value));
            Between(w, MeetOf(w, p, ref, target, v, Phase(op), wipe), z, op)
  {
    AtFacts(w, p, ref, target, q, op);
    AtCarries(w, p, ref, target, v, wipe, q, op);
    var k := MeetOf(w, p, ref, target, v, Phase(op), wipe);
    StartRow(w, p, ref, target, v, wipe, q, op);
    if op.MigratePoint? { assert k.m == Some(PlainResolve(w, p, ref).v); }
    WriteStarts(w, k, q, op);
  }

  /** The row the Migrate may still read, as it reads once the Set has written. */
  lemma StartRow(w: World, p: Plain, ref: string, target: Backend, v: string, wipe: bool, q: Plain, op: Op)
    requires Moving(p, ref, target) && p.cfg.default != DB
    requires WriteExt(w, q, p.cfg.default, ExternalRef(ref), v).Some?
    requires Phase(op) <= 1 ==> LoginsSame(w, p, q) && q.ext == p.ext
    ensures var k := MeetOf(w, p, ref, target, v, Phase(op), wipe);
            var z := ApplyPlain(q, Reach(p.cfg.default, WriteExt(w, q, p.cfg.default, ExternalRef(ref), v).value));
            Phase(op) <= 1 ==>
              match k.row case Held(value) => value == k.m case Points(b, r) => ReadExt(w, z, b, r) == k.m
  {
    var d, row := p.cfg.default, p.rows[ref];
    if row.Points? && Phase(op) <= 1 {
      ReadFrame(w, p, q, row.backend, row.backendRef);
      ThroughRead(w, q, d, ref, v, row.backend, row.backendRef);
    }
  }

  lemma WriteStarts(w: World, k: Meet, q: Plain, op: Op)
    requires External(k) && OnItsWay(q.cfg, op, k.ref) && Carries(k, op) && k.a == Phase(op)
    requires k.default == q.cfg.default && k.locks == LocksItselfOut(q.cfg, k.ref)
    requires WriteExt(w, q, k.default, ExternalRef(k.ref), k.v).Some?
    requires Phase(op) <= 3 ==> k.ref in q.rows && q.rows[k.ref] == k.row
    requires op.MigratePoint? ==> ReadExt(w, q, k.target, Pointer(k.target, k.ref)) == k.m
    requires var z := ApplyPlain(q, Reach(k.default, WriteExt(w, q, k.default, ExternalRef(k.ref), k.v).value));
             Phase(op) <= 1 ==>
               match k.row case Held(value) => value == k.m case Points(b, r) => ReadExt(w, z, b, r) == k.m
    ensures var z := ApplyPlain(q, Reach(k.default, WriteExt(w, q, k.default, ExternalRef(k.ref), k.v).value));
            Between(w, k, z, op)
  {
    var z := ApplyPlain(q, Reach(k.default, WriteExt(w, q, k.default, ExternalRef(k.ref), k.v).value));
    DefaultRead(w, k, q);
    if op.MigratePoint? { PointedRead(w, k, q); }
    WriteLands(w, k, q, z, op);
  }

  lemma DefaultRead(w: World, k: Meet, q: Plain)
    requires External(k) && WriteExt(w, q, k.default, ExternalRef(k.ref), k.v).Some?
    ensures Login(w, q, k.default).Some?
    ensures var z := ApplyPlain(q, Reach(k.default, WriteExt(w, q, k.default, ExternalRef(k.ref), k.v).value));
            && LoginsSame(w, q, z) && z.cfg == q.cfg && z.rows == q.rows && (k.default == ASM ==> z.client.Some?)
            && ReadExt(w, z, k.default, Pointer(k.default, k.ref)) == Some(k.v)
  {
    PointerAims(w, k.default, k.ref, k.v);
    OwnRead(w, q, k.default, k.ref, k.v, k.default, Pointer(k.default, k.ref));
  }

  lemma WriteLands(w: World, k: Meet, q: Plain, z: Plain, op: Op)
    requires External(k) && OnItsWay(q.cfg, op, k.ref) && Carries(k, op) && k.a == Phase(op)
    requires k.default == q.cfg.default && k.locks == LocksItselfOut(q.cfg, k.ref)
    requires z.cfg == q.cfg && z.rows == q.rows && Login(w, z, k.default).Some? && (k.default == ASM ==> z.client.Some?)
    requires Phase(op) <= 3 ==> k.ref in q.rows && q.rows[k.ref] == k.row
    requires ReadExt(w, z, k.default, Pointer(k.default, k.ref)) == Some(k.v)
    requires op.MigratePoint? ==> ReadExt(w, z, k.target, Pointer(k.target, k.ref))
                                  == if k.default == k.target then Some(k.v) else k.m
    requires Phase(op) <= 1 ==>
               match k.row case Held(value) => value == k.m case Points(b, r) => ReadExt(w, z, b, r) == k.m
    ensures Between(w, k, z, op)
  {
  }

  lemma PointedRead(w: World, k: Meet, q: Plain)
    requires External(k) && WriteExt(w, q, k.default, ExternalRef(k.ref), k.v).Some?
    ensures var z := ApplyPlain(q, Reach(k.default, WriteExt(w, q, k.default, ExternalRef(k.ref), k.v).value));
            ReadExt(w, z, k.target, Pointer(k.target, k.ref))
            == if k.default == k.target then Some(k.v) else ReadExt(w, q, k.target, Pointer(k.target, k.ref))
  {
    if k.default == k.target { PointerAims(w, k.default, k.ref, k.v); }
    OwnRead(w, q, k.default, k.ref, k.v, k.target, Pointer(k.target, k.ref));
  }

  lemma BetweenStep(w: World, k: Meet, q: Plain, op: Op)
    requires External(k) && Between(w, k, q, op)
    requires OpStep(w, q, op, op.MigrateWipe? ==> k.wipe).1 != Finished(false)
    ensures var (effect, next) := OpStep(w, q, op, op.MigrateWipe? ==> k.wipe);
            Between(w, k, ApplyPlain(q, effect), next)
  {
    if op.MigrateFetch? {
      BetweenFetch(w, k, q, op);
    } else if op.MigrateWrite? {
      BetweenWrite(w, k, q, op);
    } else if op.MigratePoint? {
      BetweenPoint(w, k, q, op);
    } else if op.MigrateWipe? {
      BetweenWipe(w, k, q, op);
    } else {
      BetweenEarly(w, k, q, op);
    }
  }

  lemma BetweenEarly(w: World, k: Meet, q: Plain, op: Op)
    requires External(k) && Between(w, k, q, op) && OpStep(w, q, op, true).1 != Finished(false)
    requires !op.MigrateFetch? && !op.MigrateWrite? && !op.MigratePoint? && !op.MigrateWipe?
    ensures var (effect, next) := OpStep(w, q, op, true);
            Between(w, k, ApplyPlain(q, effect), next)
  {
    if op.MigrateRow? || op.MigrateRead? { BetweenLook(w, k, q, op); }
  }

  lemma BetweenLook(w: World, k: Meet, q: Plain, op: Op)
    requires External(k) && Between(w, k, q, op) && (op.MigrateRow? || op.MigrateRead?)
    requires OpStep(w, q, op, true).1 != Finished(false)
    ensures OpStep(w, q, op, true).0 == Nothing && Between(w, k, q, OpStep(w, q, op, true).1)
  {
  }

  lemma BetweenFetch(w: World, k: Meet, q: Plain, op: Op)
    requires External(k) && Between(w, k, q, op) && op.MigrateFetch? && OpStep(w, q, op, true).1 != Finished(false)
    ensures var (effect, next) := OpStep(w, q, op, true);
            Between(w, k, ApplyPlain(q, effect), next)
  {
    FetchIs(w, q, op);
    BetweenUsed(w, k, q, op, op.at);
    BetweenFetched(w, k, Used(q, op.at), op, ReadExt(w, q, op.at, op.backendRef).value);
  }

  lemma FetchIs(w: World, q: Plain, op: Op)
    requires op.MigrateFetch? && OpStep(w, q, op, true).1 != Finished(false)
    ensures ReadExt(w, q, op.at, op.backendRef).Some?
    ensures var (effect, next) := OpStep(w, q, op, true);
            && ApplyPlain(q, effect) == Used(q, op.at)
            && next == MigrateWrite(op.ref, op.target, op.source, ReadExt(w, q, op.at, op.backendRef).value)
  {
  }

  lemma BetweenFetched(w: World, k: Meet, z: Plain, op: Op, x: string)
    requires External(k) && Between(w, k, z, op) && op.MigrateFetch? && k.m == Some(x)
    ensures Between(w, k, z, MigrateWrite(op.ref, op.target, op.source, x))
  {
  }

  lemma BetweenUsed(w: World, k: Meet, q: Plain, op: Op, b: Backend)
    requires Between(w, k, q, op)
    ensures Between(w, k, Used(q, b), op)
  {
    UsingIsUnseen(w, q, b);
    ReadFrame(w, q, Used(q, b), k.default, Pointer(k.default, k.ref));
    ReadFrame(w, q, Used(q, b), k.target, Pointer(k.target, k.ref));
    if k.row.Points? { ReadFrame(w, q, Used(q, b), k.row.backend, k.row.backendRef); }
  }

  lemma BetweenWrite(w: World, k: Meet, q: Plain, op: Op)
    requires External(k) && Between(w, k, q, op) && op.MigrateWrite? && OpStep(w, q, op, true).1 != Finished(false)
    ensures var (effect, next) := OpStep(w, q, op, true);
            Between(w, k, ApplyPlain(q, effect), next)
  {
    if k.target == DB {
      LoginGain(w, q, ApplyPlain(q, PutDb(k.ref, op.value)), k.ref);
      ReadFrame(w, q, ApplyPlain(q, PutDb(k.ref, op.value)), k.default, Pointer(k.default, k.ref));
    } else {
      RefusedAreLogins(q.cfg, k.ref);
      BetweenCopy(w, k, q, op);
    }
  }

  lemma BetweenCopy(w: World, k: Meet, q: Plain, op: Op)
    requires External(k) && Between(w, k, q, op) && op.MigrateWrite? && k.target != DB
    requires k.ref !in LoginRefs(q.cfg) && WriteExt(w, q, k.target, ExternalRef(k.ref), op.value).Some?
    ensures var z := ApplyPlain(q, Reach(k.target, WriteExt(w, q, k.target, ExternalRef(k.ref), op.value).value));
            Between(w, k, z, MigratePoint(k.ref, k.target, k.source))
  {
    var z := ApplyPlain(q, Reach(k.target, WriteExt(w, q, k.target, ExternalRef(k.ref), op.value).value));
    CopyReads(w, k, q, z, op.value);
    CopyLands(w, k, q, z, op);
  }

  lemma CopyReads(w: World, k: Meet, q: Plain, z: Plain, x: string)
    requires External(k) && WriteExt(w, q, k.target, ExternalRef(k.ref), x).Some?
    requires z == ApplyPlain(q, Reach(k.target, WriteExt(w, q, k.target, ExternalRef(k.ref), x).value))
    ensures z.cfg == q.cfg && z.rows == q.rows && LoginsSame(w, q, z) && (q.client.Some? ==> z.client.Some?)
    ensures ReadExt(w, z, k.target, Pointer(k.target, k.ref)) == Some(x)
    ensures ReadExt(w, z, k.default, Pointer(k.default, k.ref))
            == if k.default == k.target then Some(x) else ReadExt(w, q, k.default, Pointer(k.default, k.ref))
  {
    PointerAims(w, k.target, k.ref, x);
    OwnRead(w, q, k.target, k.ref, x, k.target, Pointer(k.target, k.ref));
    if k.default != k.target { OwnRead(w, q, k.target, k.ref, x, k.default, Pointer(k.default, k.ref)); }
  }

  /** A write-through is read in full by the pointers stored for it, and by none into another backend. */
  lemma OwnRead(w: World, q: Plain, b: Backend, ref: string, x: string, c: Backend, r: string)
    requires WriteExt(w, q, b, ExternalRef(ref), x).Some?
    requires b == c ==> NameOf(w, b, r) == OwnName(w, b, ref) && Overwritten(w, b, r, x) == Some(x)
    ensures var z := ApplyPlain(q, Reach(b, WriteExt(w, q, b, ExternalRef(ref), x).value));
            && LoginsSame(w, q, z) && z.cfg == q.cfg && z.rows == q.rows && (q.client.Some? ==> z.client.Some?)
            && (b == ASM ==> z.client.Some?)
            && ReadExt(w, z, c, r) == if b == c then Some(x) else ReadExt(w, q, c, r)
  {
    ThroughRead(w, q, b, ref, x, c, r);
  }

  lemma CopyLands(w: World, k: Meet, q: Plain, z: Plain, op: Op)
    requires External(k) && Between(w, k, q, op) && op.MigrateWrite? && k.target != DB
    requires z.cfg == q.cfg && z.rows == q.rows && LoginsSame(w, q, z) && (q.client.Some? ==> z.client.Some?)
    requires ValidExternalRefName(k.ref) && k.ref !in LoginRefs(q.cfg)
    requires ReadExt(w, z, k.target, Pointer(k.target, k.ref)) == Some(op.value)
    requires ReadExt(w, z, k.default, Pointer(k.default, k.ref))
             == if k.default == k.target then Some(op.value) else ReadExt(w, q, k.default, Pointer(k.default, k.ref))
    ensures Between(w, k, z, MigratePoint(k.ref, k.target, k.source))
  {
  }

  lemma BetweenPoint(w: World, k: Meet, q: Plain, op: Op)
    requires External(k) && Between(w, k, q, op) && op.MigratePoint?
    ensures var (effect, next) := OpStep(w, q, op, true);
            Between(w, k, ApplyPlain(q, effect), next)
  {
    var e := PutRef(k.ref, k.target, Pointer(k.target, k.ref));
    assert OpStep(w, q, op, true) == (e, MigrateWipe(k.ref, k.source));
    PointLands(w, k, q, op);
  }

  lemma PointLands(w: World, k: Meet, q: Plain, op: Op)
    requires External(k) && Between(w, k, q, op) && op.MigratePoint?
    ensures Between(w, k, ApplyPlain(q, PutRef(k.ref, k.target, Pointer(k.target, k.ref))),
                    MigrateWipe(k.ref, k.source))
  {
    var e := PutRef(k.ref, k.target, Pointer(k.target, k.ref));
    RowLogins(w, q, k.ref, e);
    ReadFrame(w, q, ApplyPlain(q, e), k.default, Pointer(k.default, k.ref));
  }

  lemma BetweenWipe(w: World, k: Meet, q: Plain, op: Op)
    requires External(k) && Between(w, k, q, op) && op.MigrateWipe?
    ensures var (effect, next) := OpStep(w, q, op, k.wipe);
            Between(w, k, ApplyPlain(q, effect), next)
  {
    assert OpStep(w, q, op, k.wipe) == (if k.wipe then Away(w, q, k.source, k.ref) else Nothing, Finished(true));
    WipeLands(w, k, q, op);
  }

  lemma WipeLands(w: World, k: Meet, q: Plain, op: Op)
    requires External(k) && Between(w, k, q, op) && op.MigrateWipe?
    ensures Between(w, k, if k.wipe then ApplyPlain(q, Away(w, q, k.source, k.ref)) else q, Finished(true))
  {
    PointerAims(w, k.default, k.ref, k.v);
    AwayRead(w, q, k.source, k.ref, k.default, Pointer(k.default, k.ref));
  }

  /** The default's login when the Set flips the row. */
  lemma FlipLogin(w: World, k: Meet, q: Plain, op: Op)
    requires External(k) && Between(w, k, q, op)
    ensures var z := ApplyPlain(q, PutRef(k.ref, k.default, Pointer(k.default, k.ref)));
            && Login(w, z, k.default) == (if k.locks then None else Login(w, q, k.default))
            && (1 <= Phase(op) <= 3 ==> !k.locks)
  {
    var z := ApplyPlain(q, PutRef(k.ref, k.default, Pointer(k.default, k.ref)));
    if k.locks {
      NeededLogin(w, q, Vault, k.ref);
      NeededLogin(w, z, Vault, k.ref);
      if 1 <= Phase(op) <= 3 && k.row.Held? { RefusedAreLogins(q.cfg, k.ref); }
    } else {
      OtherLogin(w, q, z, k.default, k.ref);
    }
  }

  /** The Set flips the row while the Migrate is where it is. */
  lemma BetweenEnds(w: World, k: Meet, q: Plain, op: Op)
    requires External(k) && Between(w, k, q, op)
    ensures Leaves(w, ApplyPlain(q, PutRef(k.ref, k.default, Pointer(k.default, k.ref))), k.ref, op, k.wipe)
            == Decided(k, Phase(op))
  {
    var z := ApplyPlain(q, PutRef(k.ref, k.default, Pointer(k.default, k.ref)));
    FlipLogin(w, k, q, op);
    PointerAims(w, k.default, k.ref, k.v);
    if !k.locks { ReadFrame(w, q, z, k.default, Pointer(k.default, k.ref)); }
    if op.MigrateFetch? {
      SecretsDecide(w, q, z);
      ReadFrame(w, q, z, op.at, op.backendRef);
    }
    if op.MigratePoint? {
      RowLogins(w, q, k.ref, PutRef(k.ref, k.default, Pointer(k.default, k.ref)));
      ReadFrame(w, q, z, k.target, Pointer(k.target, k.ref));
    }
  }

  lemma SecretsDecide(w: World, p: Plain, q: Plain)
    requires q.cfg == p.cfg && q.client == p.client && forall o :: DbSecret(q, o) == DbSecret(p, o)
    ensures LoginsSame(w, p, q)
  {
    assert VaultLogin(w, q) == VaultLogin(w, p) && AsmLogin(w, q) == AsmLogin(w, p);
    forall b ensures Login(w, q, b) == Login(w, p, b) {}
  }

  /** Until the Migrate has the value in hand the cached client is the one it started with or would have built. */
  predicate ClientAt(p: Plain, q: Plain, op: Op) {
    Phase(op) <= 1 ==> q.client in {p.client, AsmClient(p)}
  }

  /** With built-in storage as the default, writing and flipping are one. */
  lemma AtOnce(w: World, p: Plain, ref: string, target: Backend, v: string, wipe: bool, q: Plain, op: Op)
    requires Moving(p, ref, target) && p.cfg.default == DB
    requires MigrateAt(w, p, ref, target, q, op) && op != Finished(false) && ClientAt(p, q, op)
    ensures Leaves(w, ApplyPlain(q, PutDb(ref, v)), ref, op, wipe)
            == Decided(MeetOf(w, p, ref, target, v, Phase(op), wipe), Phase(op))
  {
    AtFacts(w, p, ref, target, q, op);
    AtCarries(w, p, ref, target, v, wipe, q, op);
    HomeLeaves(w, p, ref, target, v, wipe, q, op);
  }

  lemma HomeLeaves(w: World, p: Plain, ref: string, target: Backend, v: string, wipe: bool, q: Plain, op: Op)
    requires Moving(p, ref, target) && p.cfg.default == DB && q.cfg == p.cfg && ClientAt(p, q, op)
    requires OnItsWay(p.cfg, op, ref) && Carries(MeetOf(w, p, ref, target, v, Phase(op), wipe), op)
    requires Phase(op) <= 1 ==> LoginsSame(w, p, q) && q.rows == p.rows && q.ext == p.ext
    requires op.MigratePoint? ==>
               ReadExt(w, q, target, Pointer(target, ref)) == MeetOf(w, p, ref, target, v, Phase(op), wipe).m
    ensures Leaves(w, ApplyPlain(q, PutDb(ref, v)), ref, op, wipe)
            == Decided(MeetOf(w, p, ref, target, v, Phase(op), wipe), Phase(op))
  {
    if op.MigrateFetch? {
      FetchAfter(w, p, ref, v, q, op.at, op.backendRef);
    } else if op.MigratePoint? {
      RowLogins(w, q, ref, PutDb(ref, v));
      ReadFrame(w, q, ApplyPlain(q, PutDb(ref, v)), target, Pointer(target, ref));
    }
  }

  /** The row is in db storage by now, and the Migrate still holds the pointer it found. */
  lemma FetchAfter(w: World, p: Plain, ref: string, v: string, q: Plain, b: Backend, r: string)
    requires p.cfg.default == DB && ref in p.rows && p.rows[ref] == Points(b, r)
    requires q.cfg == p.cfg && q.rows == p.rows && q.ext == p.ext && LoginsSame(w, p, q)
    requires q.client in {p.client, AsmClient(p)}
    ensures ReadExt(w, ApplyPlain(q, PutDb(ref, v)), b, r) == Carried(w, p, ref, v, 1)
  {
    var z := ApplyPlain(q, PutDb(ref, v));
    if Needs(p.cfg, p.client, b, ref) { NeededLogin(w, z, b, ref); } else { OtherLogin(w, q, z, b, ref); }
  }

  // ---------------------------------------------------------------- every interleaving of the two

  const MIGRATE := 0
  const SET := 1

  /** Steps of the two operations, and readers. */
  predicate Ours(e: Event) {
    match e
    case Act(k, _, _) => k == MIGRATE || k == SET
    case Look(_, _) => true
    case Fetch(_, _) => true
    case _ => false
  }

  /** The Migrate's phase when the Set writes. */
  function WritePhase(w: World, s: PlainSystem, es: seq<Event>): nat
    decreases |es|
  {
    if es == [] || PlainNext(w, s, es[0]).None? || MIGRATE !in s.ops || SET !in s.ops then 0
    else if es[0].Act? && es[0].k == SET && s.ops[SET].SetWrite? then Phase(s.ops[MIGRATE])
    else WritePhase(w, PlainNext(w, s, es[0]).value, es[1..])
  }

  /** ... and when it flips the row. */
  function FlipPhase(w: World, s: PlainSystem, es: seq<Event>): nat
    decreases |es|
  {
    if es == [] || PlainNext(w, s, es[0]).None? || MIGRATE !in s.ops || SET !in s.ops then 0
    else if es[0].Act? && es[0].k == SET
              && (s.ops[SET].SetPoint? || (s.ops[SET].SetWrite? && s.ops[SET].backend == DB)) then
      Phase(s.ops[MIGRATE])
    else FlipPhase(w, PlainNext(w, s, es[0]).value, es[1..])
  }

  /** Whether the call that wipes the old home works. */
  predicate WipeWorks(w: World, s: PlainSystem, es: seq<Event>)
    decreases |es|
  {
    if es == [] || PlainNext(w, s, es[0]).None? || MIGRATE !in s.ops then false
    else if es[0].Act? && es[0].k == MIGRATE && s.ops[MIGRATE].MigrateWipe? then es[0].up
    else WipeWorks(w, PlainNext(w, s, es[0]).value, es[1..])
  }

  lemma {:induction false} FinishedForGood(w: World, s: PlainSystem, es: seq<Event>, k: nat)
    requires k in s.ops && s.ops[k].Finished? && PlainRun(w, s, es).Some?
    ensures k in PlainRun(w, s, es).value.ops && PlainRun(w, s, es).value.ops[k] == s.ops[k]
    decreases |es|
  {
    if es != [] { FinishedForGood(w, PlainNext(w, s, es[0]).value, es[1..], k); }
  }

  ghost predicate BothSucceed(w: World, s: PlainSystem, es: seq<Event>) {
    && (forall i | 0 <= i < |es| :: Ours(es[i])) && PlainRun(w, s, es).Some?
    && var f := PlainRun(w, s, es).value;
       MIGRATE in f.ops && SET in f.ops && f.ops[MIGRATE] == Finished(true) && f.ops[SET] == Finished(true)
  }

  /** A step towards success has not failed. */
  lemma Succeeding(w: World, s: PlainSystem, es: seq<Event>)
    requires BothSucceed(w, s, es) && es != []
    ensures PlainNext(w, s, es[0]).Some? && BothSucceed(w, PlainNext(w, s, es[0]).value, es[1..])
    ensures forall k | k in PlainNext(w, s, es[0]).value.ops && (k == MIGRATE || k == SET) ::
              PlainNext(w, s, es[0]).value.ops[k] != Finished(false)
  {
    var t := PlainNext(w, s, es[0]).value;
    forall k | k in t.ops && (k == MIGRATE || k == SET) ensures t.ops[k] != Finished(false) {
      if t.ops[k] == Finished(false) { FinishedForGood(w, t, es[1..], k); }
    }
  }

  lemma LeavesUsed(w: World, q: Plain, ref: string, op: Op, wipe: bool, b: Backend)
    ensures Leaves(w, Used(q, b), ref, op, wipe) == Leaves(w, q, ref, op, wipe)
  {
    UsingIsUnseen(w, q, b);
    match op
    case MigrateFetch(_, _, _, c, r) => ReadFrame(w, q, Used(q, b), c, r);
    case MigratePoint(_, t, _) => ReadFrame(w, q, Used(q, b), t, Pointer(t, ref));
    case _ =>
  }

  /** A Migrate's step, whatever its call did, given that it goes on to succeed. */
  lemma UpIsNeeded(w: World, q: Plain, op: Op, ref: string, up: bool)
    requires OnItsWay(q.cfg, op, ref) && OpStep(w, q, op, up).1 != Finished(false) && !op.Finished?
    ensures up || op.MigrateWipe?
  {
  }

  /** The Set is done: the Migrate leaves what it was going to leave. */
  lemma {:induction false} Ending(w: World, s: PlainSystem, es: seq<Event>, ref: string, wipe: bool)
    requires BothSucceed(w, s, es) && MIGRATE in s.ops && SET in s.ops && s.ops[SET].Finished?
    requires OnItsWay(s.p.cfg, s.ops[MIGRATE], ref)
    requires Phase(s.ops[MIGRATE]) < 5 ==> wipe == WipeWorks(w, s, es)
    ensures PlainResolve(w, PlainRun(w, s, es).value.p, ref) == Leaves(w, s.p, ref, s.ops[MIGRATE], wipe)
    decreases |es|
  {
    if es != [] {
      Succeeding(w, s, es);
      var t, op := PlainNext(w, s, es[0]).value, s.ops[MIGRATE];
      if es[0].Act? && es[0].k == MIGRATE && !op.Finished? {
        UpIsNeeded(w, s.p, op, ref, es[0].up);
        LeavesStep(w, s.p, ref, op, wipe);
      } else if es[0].Fetch? && es[0].up {
        LeavesUsed(w, s.p, ref, op, wipe, s.readers[es[0].k].backend);
      }
      Ending(w, t, es[1..], ref, wipe);
    }
  }

  /** The Set has written and has yet to flip the row. */
  lemma {:induction false} Middle(w: World, s: PlainSystem, es: seq<Event>, k: Meet)
    requires BothSucceed(w, s, es) && MIGRATE in s.ops && SET in s.ops && s.ops[SET] == SetPoint(k.ref, k.default)
    requires External(k) && Between(w, k, s.p, s.ops[MIGRATE])
    requires Phase(s.ops[MIGRATE]) < 5 ==> k.wipe == WipeWorks(w, s, es)
    ensures PlainResolve(w, PlainRun(w, s, es).value.p, k.ref) == Decided(k, FlipPhase(w, s, es))
    decreases |es|
  {
    assert es != [];
    if es[0].Act? && es[0].k == SET {
      TheFlip(w, s, es, k);
    } else {
      Succeeding(w, s, es);
      MiddleTurn(w, s, es, k);
      MiddleStep(w, s, es, k);
      Middle(w, PlainNext(w, s, es[0]).value, es[1..], k);
    }
  }

  lemma MiddleTurn(w: World, s: PlainSystem, es: seq<Event>, k: Meet)
    requires BothSucceed(w, s, es) && es != [] && MIGRATE in s.ops && !(es[0].Act? && es[0].k == SET)
    requires External(k) && Between(w, k, s.p, s.ops[MIGRATE])
    requires Phase(s.ops[MIGRATE]) < 5 ==> k.wipe == WipeWorks(w, s, es)
    ensures PlainNext(w, s, es[0]).Some?
    ensures var t := PlainNext(w, s, es[0]).value;
            MIGRATE in t.ops && Between(w, k, t.p, t.ops[MIGRATE])
  {
    Succeeding(w, s, es);
    var op := s.ops[MIGRATE];
    if es[0].Act? && !op.Finished? {
      UpIsNeeded(w, s.p, op, k.ref, es[0].up);
      BetweenStep(w, k, s.p, op);
    } else if es[0].Fetch? && es[0].up {
      BetweenUsed(w, k, s.p, op, s.readers[es[0].k].backend);
    }
  }

  lemma MiddleStep(w: World, s: PlainSystem, es: seq<Event>, k: Meet)
    requires BothSucceed(w, s, es) && es != [] && PlainNext(w, s, es[0]).Some?
    requires MIGRATE in s.ops && SET in s.ops && s.ops[SET] == SetPoint(k.ref, k.default)
    requires !(es[0].Act? && es[0].k == SET)
    requires Phase(s.ops[MIGRATE]) < 5 ==> k.wipe == WipeWorks(w, s, es)
    ensures var t := PlainNext(w, s, es[0]).value;
            && MIGRATE in t.ops && SET in t.ops && t.ops[SET] == s.ops[SET]
            && FlipPhase(w, s, es) == FlipPhase(w, t, es[1..])
            && (Phase(t.ops[MIGRATE]) < 5 ==> k.wipe == WipeWorks(w, t, es[1..]))
  {
    WipeStays(w, s, es, k.wipe);
  }

  lemma WipeStays(w: World, s: PlainSystem, es: seq<Event>, wipe: bool)
    requires es != [] && PlainNext(w, s, es[0]).Some? && Ours(es[0]) && MIGRATE in s.ops && SET in s.ops
    requires Phase(s.ops[MIGRATE]) < 5 ==> wipe == WipeWorks(w, s, es)
    ensures var t := PlainNext(w, s, es[0]).value;
            MIGRATE in t.ops && (Phase(t.ops[MIGRATE]) < 5 ==> wipe == WipeWorks(w, t, es[1..]))
  {
  }

  lemma TheFlip(w: World, s: PlainSystem, es: seq<Event>, k: Meet)
    requires BothSucceed(w, s, es) && MIGRATE in s.ops && SET in s.ops && s.ops[SET] == SetPoint(k.ref, k.default)
    requires External(k) && Between(w, k, s.p, s.ops[MIGRATE]) && es != [] && es[0].Act? && es[0].k == SET
    requires Phase(s.ops[MIGRATE]) < 5 ==> k.wipe == WipeWorks(w, s, es)
    ensures PlainResolve(w, PlainRun(w, s, es).value.p, k.ref) == Decided(k, FlipPhase(w, s, es))
  {
    Succeeding(w, s, es);
    var t, op := PlainNext(w, s, es[0]).value, s.ops[MIGRATE];
    assert t.ops[SET] == OpStep(w, s.p, s.ops[SET], es[0].up).1;
    BetweenEnds(w, k, s.p, op);
    Ending(w, t, es[1..], k.ref, k.wipe);
  }

  /** The Set has not written yet. */
  lemma {:induction false} Before(w: World, p: Plain, ref: string, target: Backend, v: string, wipe: bool,
                                  s: PlainSystem, es: seq<Event>)
    requires Moving(p, ref, target) && BothSucceed(w, s, es) && MIGRATE in s.ops && SET in s.ops
    requires MigrateAt(w, p, ref, target, s.p, s.ops[MIGRATE]) && s.ops[MIGRATE] != Finished(false)
    requires ClientAt(p, s.p, s.ops[MIGRATE])
    requires s.ops[SET] == SetOp(ref, v) || s.ops[SET] == SetWrite(ref, v, p.cfg.default)
    requires Phase(s.ops[MIGRATE]) < 5 ==> wipe == WipeWorks(w, s, es)
    ensures PlainResolve(w, PlainRun(w, s, es).value.p, ref)
            == Decided(MeetOf(w, p, ref, target, v, WritePhase(w, s, es), wipe), FlipPhase(w, s, es))
    decreases |es|
  {
    assert es != [];
    Succeeding(w, s, es);
    var t, op := PlainNext(w, s, es[0]).value, s.ops[MIGRATE];
    AtFacts(w, p, ref, target, s.p, op);
    if es[0].Act? && es[0].k == SET && s.ops[SET].SetWrite? {
      if p.cfg.default == DB {
        WriteHome(w, p, ref, target, v, wipe, s, es);
      } else {
        WriteThrough(w, p, ref, target, v, wipe, s, es);
      }
    } else {
      BeforeStep(w, p, ref, target, v, wipe, s, es);
      Before(w, p, ref, target, v, wipe, t, es[1..]);
    }
  }

  lemma BeforeStep(w: World, p: Plain, ref: string, target: Backend, v: string, wipe: bool, s: PlainSystem,
                   es: seq<Event>)
    requires Moving(p, ref, target) && BothSucceed(w, s, es) && MIGRATE in s.ops && SET in s.ops && es != []
    requires MigrateAt(w, p, ref, target, s.p, s.ops[MIGRATE]) && s.ops[MIGRATE] != Finished(false)
    requires ClientAt(p, s.p, s.ops[MIGRATE])
    requires s.ops[SET] == SetOp(ref, v) || s.ops[SET] == SetWrite(ref, v, p.cfg.default)
    requires !(es[0].Act? && es[0].k == SET && s.ops[SET].SetWrite?)
    requires Phase(s.ops[MIGRATE]) < 5 ==> wipe == WipeWorks(w, s, es)
    ensures PlainNext(w, s, es[0]).Some?
    ensures var t := PlainNext(w, s, es[0]).value;
            && MIGRATE in t.ops && SET in t.ops
            && (t.ops[SET] == SetOp(ref, v) || t.ops[SET] == SetWrite(ref, v, p.cfg.default))
            && MigrateAt(w, p, ref, target, t.p, t.ops[MIGRATE]) && ClientAt(p, t.p, t.ops[MIGRATE])
            && WritePhase(w, s, es) == WritePhase(w, t, es[1..]) && FlipPhase(w, s, es) == FlipPhase(w, t, es[1..])
            && (Phase(t.ops[MIGRATE]) < 5 ==> wipe == WipeWorks(w, t, es[1..]))
  {
    Succeeding(w, s, es);
    BeforePhases(w, ref, v, wipe, s, es);
    AtFacts(w, p, ref, target, s.p, s.ops[MIGRATE]);
    BeforeMigrate(w, p, ref, target, s, es[0]);
    BeforeClient(w, p, ref, s, es[0]);
    if es[0].Act? && es[0].k == SET {
      assert PlainNext(w, s, es[0]).value.ops[SET] == OpStep(w, s.p, s.ops[SET], es[0].up).1;
    }
  }

  lemma ClientStep(w: World, p: Plain, q: Plain, op: Op, up: bool)
    requires Phase(op) <= 1 ==> ClientAt(p, q, op) && q.rows == p.rows && q.cfg == p.cfg
    requires op.MigrateOp? || op.MigrateCheck? || op.MigrateRow? || op.MigrateRead? || Phase(op) >= 1
    ensures var (effect, next) := OpStep(w, q, op, up);
            ClientAt(p, ApplyPlain(q, effect), next)
  {
  }

  lemma BeforeMigrate(w: World, p: Plain, ref: string, target: Backend, s: PlainSystem, e: Event)
    requires Ours(e) && PlainNext(w, s, e).Some? && MIGRATE in s.ops && SET in s.ops
    requires MigrateAt(w, p, ref, target, s.p, s.ops[MIGRATE])
    requires e.Act? && e.k == SET ==> s.ops[SET].SetOp?
    ensures var t := PlainNext(w, s, e).value;
            MIGRATE in t.ops && SET in t.ops && MigrateAt(w, p, ref, target, t.p, t.ops[MIGRATE])
  {
    var op := s.ops[MIGRATE];
    if e.Act? && e.k == MIGRATE {
      MigrateStep(w, p, ref, target, s.p, op, e.up);
    } else if e.Fetch? && e.up {
      UsedKeepsMigrate(w, p, ref, target, s.p, op, s.readers[e.k].backend);
    }
  }

  lemma BeforeClient(w: World, p: Plain, ref: string, s: PlainSystem, e: Event)
    requires Ours(e) && PlainNext(w, s, e).Some? && MIGRATE in s.ops && SET in s.ops
    requires OnItsWay(p.cfg, s.ops[MIGRATE], ref) && ClientAt(p, s.p, s.ops[MIGRATE])
    requires Phase(s.ops[MIGRATE]) <= 1 ==> s.p.rows == p.rows && s.p.cfg == p.cfg
    requires e.Act? && e.k == SET ==> s.ops[SET].SetOp?
    ensures var t := PlainNext(w, s, e).value;
            MIGRATE in t.ops && ClientAt(p, t.p, t.ops[MIGRATE])
  {
    if e.Act? && e.k == MIGRATE { ClientStep(w, p, s.p, s.ops[MIGRATE], e.up); }
  }

  lemma BeforePhases(w: World, ref: string, v: string, wipe: bool, s: PlainSystem, es: seq<Event>)
    requires es != [] && MIGRATE in s.ops && SET in s.ops && PlainNext(w, s, es[0]).Some?
    requires s.ops[SET].SetOp? || (s.ops[SET].SetWrite? && !(es[0].Act? && es[0].k == SET))
    requires Phase(s.ops[MIGRATE]) < 5 ==> wipe == WipeWorks(w, s, es)
    ensures var t := PlainNext(w, s, es[0]).value;
            && WritePhase(w, s, es) == WritePhase(w, t, es[1..]) && FlipPhase(w, s, es) == FlipPhase(w, t, es[1..])
            && (MIGRATE in t.ops && Phase(t.ops[MIGRATE]) < 5 ==> wipe == WipeWorks(w, t, es[1..]))
  {
  }

  lemma WriteHome(w: World, p: Plain, ref: string, target: Backend, v: string, wipe: bool, s: PlainSystem,
                  es: seq<Event>)
    requires Moving(p, ref, target) && BothSucceed(w, s, es) && MIGRATE in s.ops && SET in s.ops && es != []
    requires MigrateAt(w, p, ref, target, s.p, s.ops[MIGRATE]) && s.ops[MIGRATE] != Finished(false)
    requires ClientAt(p, s.p, s.ops[MIGRATE])
    requires s.ops[SET] == SetWrite(ref, v, p.cfg.default) && es[0].Act? && es[0].k == SET
    requires Phase(s.ops[MIGRATE]) < 5 ==> wipe == WipeWorks(w, s, es)
    requires p.cfg.default == DB
    ensures PlainResolve(w, PlainRun(w, s, es).value.p, ref)
            == Decided(MeetOf(w, p, ref, target, v, WritePhase(w, s, es), wipe), FlipPhase(w, s, es))
  {
    Succeeding(w, s, es);
    WriteTurn(w, ref, v, DB, s, es, wipe);
    AtFacts(w, p, ref, target, s.p, s.ops[MIGRATE]);
    AtOnce(w, p, ref, target, v, wipe, s.p, s.ops[MIGRATE]);
    Ending(w, PlainNext(w, s, es[0]).value, es[1..], ref, wipe);
  }

  lemma WriteThrough(w: World, p: Plain, ref: string, target: Backend, v: string, wipe: bool, s: PlainSystem,
                     es: seq<Event>)
    requires Moving(p, ref, target) && BothSucceed(w, s, es) && MIGRATE in s.ops && SET in s.ops && es != []
    requires MigrateAt(w, p, ref, target, s.p, s.ops[MIGRATE]) && s.ops[MIGRATE] != Finished(false)
    requires ClientAt(p, s.p, s.ops[MIGRATE])
    requires s.ops[SET] == SetWrite(ref, v, p.cfg.default) && es[0].Act? && es[0].k == SET
    requires Phase(s.ops[MIGRATE]) < 5 ==> wipe == WipeWorks(w, s, es)
    requires p.cfg.default != DB
    ensures PlainResolve(w, PlainRun(w, s, es).value.p, ref)
            == Decided(MeetOf(w, p, ref, target, v, WritePhase(w, s, es), wipe), FlipPhase(w, s, es))
  {
    Succeeding(w, s, es);
    WriteTurn(w, ref, v, p.cfg.default, s, es, wipe);
    AtFacts(w, p, ref, target, s.p, s.ops[MIGRATE]);
    BetweenStarts(w, p, ref, target, v, wipe, s.p, s.ops[MIGRATE]);
    Middle(w, PlainNext(w, s, es[0]).value, es[1..], MeetOf(w, p, ref, target, v, Phase(s.ops[MIGRATE]), wipe));
  }

  /** The Set's write, and what the run after it has of the phases. */
  lemma WriteTurn(w: World, ref: string, v: string, d: Backend, s: PlainSystem, es: seq<Event>, wipe: bool)
    requires MIGRATE in s.ops && SET in s.ops && es != [] && PlainNext(w, s, es[0]).Some?
    requires s.ops[SET] == SetWrite(ref, v, d) && es[0].Act? && es[0].k == SET
    requires PlainNext(w, s, es[0]).value.ops[SET] != Finished(false)
    requires Phase(s.ops[MIGRATE]) < 5 ==> wipe == WipeWorks(w, s, es)
    ensures var t := PlainNext(w, s, es[0]).value;
            && MIGRATE in t.ops && SET in t.ops && t.ops[MIGRATE] == s.ops[MIGRATE]
            && (Phase(t.ops[MIGRATE]) < 5 ==> wipe == WipeWorks(w, t, es[1..]))
            && WritePhase(w, s, es) == Phase(s.ops[MIGRATE])
            && (if d == DB then
                  && t.ops[SET] == Finished(true) && t.p == ApplyPlain(s.p, PutDb(ref, v))
                  && FlipPhase(w, s, es) == Phase(s.ops[MIGRATE])
                else
                  && ValidExternalRefName(ref) && WriteExt(w, s.p, d, ExternalRef(ref), v).Some?
                  && t.ops[SET] == SetPoint(ref, d)
                  && t.p == ApplyPlain(s.p, Reach(d, WriteExt(w, s.p, d, ExternalRef(ref), v).value))
                  && FlipPhase(w, s, es) == FlipPhase(w, t, es[1..]))
  {
  }

  function Together(p: Plain, ref: string, target: Backend, v: string, readers: map<nat, Reader>): PlainSystem {
    PlainSystem(p, map[MIGRATE := MigrateOp(ref, target), SET := SetOp(ref, v)], readers)
  }

  /** The Set's value is overtaken: the Migrate's older copy ends up over it. */
  predicate Overtaken(k: Meet, c: nat) {
    && c > 0 && k.source != k.target && k.m != Some(k.v)
    && if k.default == k.target && k.default != DB then k.a <= 2 else c <= 3
  }

  /** ... or wiped: it was written to the old home before that was wiped. */
  predicate WipedAfter(k: Meet, c: nat) {
    c >= 4 && k.source != k.target && k.default == k.source && k.default != DB && k.a <= 4 && k.wipe
  }

  /** A Migrate with nothing to move, until the Set's flip: no row yet, or one at the target already. */
  ghost predicate Idle(q: Plain, ref: string, target: Backend, op: Op) {
    && (ref in q.rows ==> RowBackend(q.rows[ref]) == target) && OnItsWay(q.cfg, op, ref)
    && match op
       case MigrateOp(_, t) => t == target
       case MigrateCheck(_, t, _) => t == target
       case MigrateRow(_, t) => t == target
       case Finished(_) => true
       case _ => false
  }

  /** The Set, until its flip; once it has written, its pointer reads what it wrote. */
  ghost predicate Poised(w: World, q: Plain, ref: string, v: string, op: Op) {
    var d := q.cfg.default;
    || op == SetOp(ref, v) || op == SetWrite(ref, v, d)
    || (op == SetPoint(ref, d) && d != DB && ReadExt(w, q, d, Pointer(d, ref)) == Some(v)
        && (d == ASM ==> q.client.Some?))
  }

  /** What `ref` answers once a Set with nothing to meet is done. */
  function Alone(cfg: Settings, ref: string, v: string): Result {
    if LocksItselfOut(cfg, ref) then Failed else Value(v)
  }

  /** With nothing to move at the start the Migrate moves nothing or the new value, and what the Set leaves
      stands. */
  lemma {:induction false} NothingToMove(w: World, ref: string, target: Backend, v: string, s: PlainSystem,
                                         es: seq<Event>)
    requires BothSucceed(w, s, es) && MIGRATE in s.ops && SET in s.ops
    requires Idle(s.p, ref, target, s.ops[MIGRATE]) && Poised(w, s.p, ref, v, s.ops[SET])
    ensures PlainResolve(w, PlainRun(w, s, es).value.p, ref) == Alone(s.p.cfg, ref, v)
    decreases |es|
  {
    assert es != [];
    Succeeding(w, s, es);
    var t := PlainNext(w, s, es[0]).value;
    if es[0].Act? && es[0].k == SET {
      IdleSet(w, ref, target, v, s, es[0]);
      if t.ops[SET].Finished? {
        Ending(w, t, es[1..], ref, WipeWorks(w, t, es[1..]));
      } else {
        NothingToMove(w, ref, target, v, t, es[1..]);
      }
    } else {
      IdleRest(w, ref, target, v, s, es[0]);
      NothingToMove(w, ref, target, v, t, es[1..]);
    }
  }

  lemma IdleRest(w: World, ref: string, target: Backend, v: string, s: PlainSystem, e: Event)
    requires MIGRATE in s.ops && SET in s.ops
    requires Idle(s.p, ref, target, s.ops[MIGRATE]) && Poised(w, s.p, ref, v, s.ops[SET])
    requires Ours(e) && !(e.Act? && e.k == SET) && PlainNext(w, s, e).Some?
    requires PlainNext(w, s, e).value.ops[MIGRATE] != Finished(false)
    ensures var t := PlainNext(w, s, e).value;
            && MIGRATE in t.ops && SET in t.ops && t.p.cfg == s.p.cfg
            && Idle(t.p, ref, target, t.ops[MIGRATE]) && Poised(w, t.p, ref, v, t.ops[SET])
  {
    var t, d := PlainNext(w, s, e).value, s.p.cfg.default;
    if e.Fetch? && e.up {
      UsingIsUnseen(w, s.p, s.readers[e.k].backend);
      ReadFrame(w, s.p, t.p, d, Pointer(d, ref));
    } else if e.Act? {
      assert t.ops[MIGRATE] == OpStep(w, s.p, s.ops[MIGRATE], e.up).1;
      assert OpStep(w, s.p, s.ops[MIGRATE], e.up).0 == Nothing;
    }
  }

  lemma IdleSet(w: World, ref: string, target: Backend, v: string, s: PlainSystem, e: Event)
    requires MIGRATE in s.ops && SET in s.ops
    requires Idle(s.p, ref, target, s.ops[MIGRATE]) && Poised(w, s.p, ref, v, s.ops[SET])
    requires e.Act? && e.k == SET && PlainNext(w, s, e).value.ops[SET] != Finished(false)
    ensures var t := PlainNext(w, s, e).value;
            && t.p.cfg == s.p.cfg && t.ops[MIGRATE] == s.ops[MIGRATE]
            && if t.ops[SET].Finished? then PlainResolve(w, t.p, ref) == Alone(s.p.cfg, ref, v)
               else Idle(t.p, ref, target, t.ops[MIGRATE]) && Poised(w, t.p, ref, v, t.ops[SET])
  {
    var t, d := PlainNext(w, s, e).value, s.p.cfg.default;
    assert t.ops[SET] == OpStep(w, s.p, s.ops[SET], e.up).1;
    if s.ops[SET].SetWrite? && d != DB {
      PointerAims(w, d, ref, v);
      OwnRead(w, s.p, d, ref, v, d, Pointer(d, ref));
    } else if s.ops[SET].SetPoint? {
      IdleFlip(w, s.p, ref, v);
    }
  }

  lemma IdleFlip(w: World, q: Plain, ref: string, v: string)
    requires Poised(w, q, ref, v, SetPoint(ref, q.cfg.default))
    ensures var d := q.cfg.default;
            PlainResolve(w, ApplyPlain(q, PutRef(ref, d, Pointer(d, ref))), ref) == Alone(q.cfg, ref, v)
  {
    var d := q.cfg.default;
    var z := ApplyPlain(q, PutRef(ref, d, Pointer(d, ref)));
    if LocksItselfOut(q.cfg, ref) {
      NeededLogin(w, z, Vault, ref);
    } else {
      OtherLogin(w, q, z, d, ref);
      ReadFrame(w, q, z, d, Pointer(d, ref));
    }
  }

  /** For every start and every interleaving of one Migrate and one Set of the same ref, readers around them, in
      which both report success: the final answer is decided by where the Migrate was when the Set wrote and when
      it flipped the row; and it is the Set's value if and only if the Set did not overwrite vault's own login and
      was neither overtaken, between the Migrate's read and its flip, nor wiped, between the flip and the wipe. */
  lemma MigrateMeetsSet(w: World, p: Plain, ref: string, target: Backend, v: string, readers: map<nat, Reader>,
                        es: seq<Event>)
    requires BothSucceed(w, Together(p, ref, target, v, readers), es)
    ensures var s := Together(p, ref, target, v, readers);
            var k := MeetOf(w, p, ref, target, v, WritePhase(w, s, es), WipeWorks(w, s, es));
            var c := FlipPhase(w, s, es);
            var answer := PlainResolve(w, PlainRun(w, s, es).value.p, ref);
            answer == Decided(k, c) && (answer == Value(v) <==> !k.locks && !Overtaken(k, c) && !WipedAfter(k, c))
  {
    var s := Together(p, ref, target, v, readers);
    if Moving(p, ref, target) {
      Before(w, p, ref, target, v, WipeWorks(w, s, es), s, es);
    } else {
      NothingToMove(w, ref, target, v, s, es);
    }
    DecidedExactly(MeetOf(w, p, ref, target, v, WritePhase(w, s, es), WipeWorks(w, s, es)), FlipPhase(w, s, es));
  }

  lemma DecidedExactly(k: Meet, c: nat)
    ensures Decided(k, c) == Value(k.v) <==> !k.locks && !Overtaken(k, c) && !WipedAfter(k, c)
  {
  }

  // ---------------------------------------------------------------- the two failures, from the start

  const SET_STEP := Act(SET, true, "")
  const MIGRATE_STEP := Act(MIGRATE, true, "")

  lemma {:induction false} RunPrefix(w: World, s: PlainSystem, es: seq<Event>, e: Event)
    ensures PlainRun(w, s, es + [e])
            == match PlainRun(w, s, es) case None => None case Some(t) => PlainNext(w, t, e)
    decreases |es|
  {
    if es == [] {
      assert es + [e] == [e] && [e][1..] == [];
    } else {
      assert (es + [e])[1..] == es[1..] + [e];
      if PlainNext(w, s, es[0]).Some? { RunPrefix(w, PlainNext(w, s, es[0]).value, es[1..], e); }
    }
  }

  /** A run of the two alone has brought the store to `p` and them to these steps. */
  ghost predicate Reached(w: World, s: PlainSystem, es: seq<Event>, p: Plain, migrate: Op, setter: Op) {
    && PlainRun(w, s, es) == Some(PlainSystem(p, map[MIGRATE := migrate, SET := setter], s.readers))
    && forall i | 0 <= i < |es| :: Ours(es[i])
  }

  lemma MigrateGoes(w: World, s: PlainSystem, es: seq<Event>, p: Plain, migrate: Op, setter: Op, q: Plain, next: Op)
    requires Reached(w, s, es, p, migrate, setter)
    requires ApplyPlain(p, OpStep(w, p, migrate, true).0) == q && OpStep(w, p, migrate, true).1 == next
    ensures Reached(w, s, es + [MIGRATE_STEP], q, next, setter)
  {
    RunPrefix(w, s, es, MIGRATE_STEP);
    assert map[MIGRATE := migrate, SET := setter][MIGRATE := next] == map[MIGRATE := next, SET := setter];
  }

  lemma SetGoes(w: World, s: PlainSystem, es: seq<Event>, p: Plain, migrate: Op, setter: Op, q: Plain, next: Op)
    requires Reached(w, s, es, p, migrate, setter)
    requires ApplyPlain(p, OpStep(w, p, setter, true).0) == q && OpStep(w, p, setter, true).1 == next
    ensures Reached(w, s, es + [SET_STEP], q, migrate, next)
  {
    RunPrefix(w, s, es, SET_STEP);
    assert map[MIGRATE := migrate, SET := setter][SET := next] == map[MIGRATE := migrate, SET := next];
  }

  /** A Migrate home of an external secret, as far as holding its value. */
  const TO_THE_VALUE := [MIGRATE_STEP] + [MIGRATE_STEP] + [MIGRATE_STEP] + [MIGRATE_STEP]

  lemma Fetches(w: World, p: Plain, ref: string, v: string, b: Backend, r: string, x: string)
    requires ref in p.rows && p.rows[ref] == Points(b, r) && b != DB && ReadExt(w, p, b, r) == Some(x)
    ensures Reached(w, Together(p, ref, DB, v, map[]), TO_THE_VALUE, Used(p, b), MigrateWrite(ref, DB, b, x),
                    SetOp(ref, v))
  {
    var s, setter := Together(p, ref, DB, v, map[]), SetOp(ref, v);
    var es := [MIGRATE_STEP] + [MIGRATE_STEP] + [MIGRATE_STEP];
    LooksHome(w, p, ref, v, b, r);
    FetchGoes(w, p, ref, b, r, x);
    MigrateGoes(w, s, es, p, MigrateFetch(ref, DB, b, b, r), setter, Used(p, b), MigrateWrite(ref, DB, b, x));
  }

  lemma LooksHome(w: World, p: Plain, ref: string, v: string, b: Backend, r: string)
    requires ref in p.rows && p.rows[ref] == Points(b, r) && b != DB
    ensures Reached(w, Together(p, ref, DB, v, map[]), [MIGRATE_STEP] + [MIGRATE_STEP] + [MIGRATE_STEP], p,
                    MigrateFetch(ref, DB, b, b, r), SetOp(ref, v))
  {
    var s, setter := Together(p, ref, DB, v, map[]), SetOp(ref, v);
    HomeSteps(w, p, ref, b, r);
    assert [] + [MIGRATE_STEP] == [MIGRATE_STEP];
    MigrateGoes(w, s, [], p, MigrateOp(ref, DB), setter, p, MigrateRow(ref, DB));
    MigrateGoes(w, s, [MIGRATE_STEP], p, MigrateRow(ref, DB), setter, p, MigrateRead(ref, DB, b));
    MigrateGoes(w, s, [MIGRATE_STEP] + [MIGRATE_STEP], p, MigrateRead(ref, DB, b), setter, p,
                MigrateFetch(ref, DB, b, b, r));
  }

  lemma HomeSteps(w: World, p: Plain, ref: string, b: Backend, r: string)
    requires ref in p.rows && p.rows[ref] == Points(b, r) && b != DB
    ensures OpStep(w, p, MigrateOp(ref, DB), true) == (Nothing, MigrateRow(ref, DB))
    ensures OpStep(w, p, MigrateRow(ref, DB), true) == (Nothing, MigrateRead(ref, DB, b))
    ensures OpStep(w, p, MigrateRead(ref, DB, b), true) == (Nothing, MigrateFetch(ref, DB, b, b, r))
  {
  }

  lemma FetchGoes(w: World, p: Plain, ref: string, b: Backend, r: string, x: string)
    requires ReadExt(w, p, b, r) == Some(x)
    ensures var (effect, next) := OpStep(w, p, MigrateFetch(ref, DB, b, b, r), true);
            ApplyPlain(p, effect) == Used(p, b) && next == MigrateWrite(ref, DB, b, x)
  {
  }

  const SET_OVERTAKEN := TO_THE_VALUE + [SET_STEP] + [SET_STEP]

  /** A secret is moved home while built-in storage is the default: a Set that lands between the Migrate's read
      and its write reports success and is overtaken by the old value. */
  lemma StaleCopyWins(w: World, p: Plain, ref: string, v: string, b: Backend, r: string, stale: string)
    requires p.cfg.default == DB && ref in p.rows && p.rows[ref] == Points(b, r) && b != DB
    requires ReadExt(w, p, b, r) == Some(stale)
    ensures var s := Together(p, ref, DB, v, map[]);
            && (var t := PlainRun(w, s, SET_OVERTAKEN);
                t.Some? && SET in t.value.ops && t.value.ops[SET] == Finished(true)
                && PlainResolve(w, t.value.p, ref) == Value(v))
            && (var es := SET_OVERTAKEN + [MIGRATE_STEP] + [MIGRATE_STEP];
                BothSucceed(w, s, es) && PlainResolve(w, PlainRun(w, s, es).value.p, ref) == Value(stale))
  {
    var s, q := Together(p, ref, DB, v, map[]), Used(p, b);
    var migrate, z := MigrateWrite(ref, DB, b, stale), ApplyPlain(q, PutDb(ref, v));
    Fetches(w, p, ref, v, b, r, stale);
    SetGoes(w, s, TO_THE_VALUE, q, migrate, SetOp(ref, v), q, SetWrite(ref, v, DB));
    SetGoes(w, s, TO_THE_VALUE + [SET_STEP], q, migrate, SetWrite(ref, v, DB), z, Finished(true));
    assert Reached(w, s, SET_OVERTAKEN, z, migrate, Finished(true));
    Overtakes(w, s, SET_OVERTAKEN, z, ref, b, stale);
  }

  lemma Overtakes(w: World, s: PlainSystem, es: seq<Event>, z: Plain, ref: string, b: Backend, stale: string)
    requires Reached(w, s, es, z, MigrateWrite(ref, DB, b, stale), Finished(true))
    ensures var all := es + [MIGRATE_STEP] + [MIGRATE_STEP];
            BothSucceed(w, s, all) && PlainResolve(w, PlainRun(w, s, all).value.p, ref) == Value(stale)
  {
    var home := ApplyPlain(z, PutDb(ref, stale));
    MigrateGoes(w, s, es, z, MigrateWrite(ref, DB, b, stale), Finished(true), home, MigrateWipe(ref, b));
    Wipes(w, s, es + [MIGRATE_STEP], home, ref, b);
    LeavesWipe(w, home, ref, b, true);
  }

  const SET_TOO_EARLY := TO_THE_VALUE + [MIGRATE_STEP] + [SET_STEP] + [SET_STEP] + [SET_STEP]

  /** A secret is moved home from the default backend: a Set that lands between the Migrate's flip and its wipe
      writes to the home being left, reports success, reads well, and is gone with the wipe. */
  lemma LateWipeLosesSet(w: World, p: Plain, ref: string, v: string, r: string)
    requires var d := p.cfg.default;
             && d != DB && ValidExternalRefName(ref) && ref in p.rows && p.rows[ref] == Points(d, r)
             && ReadExt(w, p, d, r).Some?
    ensures var s := Together(p, ref, DB, v, map[]);
            && (var t := PlainRun(w, s, SET_TOO_EARLY);
                t.Some? && SET in t.value.ops && t.value.ops[SET] == Finished(true)
                && PlainResolve(w, t.value.p, ref) == Value(v))
            && (var es := SET_TOO_EARLY + [MIGRATE_STEP];
                BothSucceed(w, s, es) && PlainResolve(w, PlainRun(w, s, es).value.p, ref) == Failed)
  {
    var s, d := Together(p, ref, DB, v, map[]), p.cfg.default;
    var x := ReadExt(w, p, d, r).value;
    var home := ApplyPlain(Used(p, d), PutDb(ref, x));
    Fetches(w, p, ref, v, d, r, x);
    MigrateGoes(w, s, TO_THE_VALUE, Used(p, d), MigrateWrite(ref, DB, d, x), SetOp(ref, v), home, MigrateWipe(ref, d));
    HomeLogin(w, p, ref, x);
    var z := ApplyPlain(home, Reach(d, WriteExt(w, home, d, ExternalRef(ref), v).value));
    var done := ApplyPlain(z, PutRef(ref, d, Pointer(d, ref)));
    SetsAll(w, s, TO_THE_VALUE + [MIGRATE_STEP], home, MigrateWipe(ref, d), ref, v);
    FlipThenWipe(w, home, z, ref, v);
    Wipes(w, s, SET_TOO_EARLY, done, ref, d);
  }

  lemma Wipes(w: World, s: PlainSystem, es: seq<Event>, done: Plain, ref: string, d: Backend)
    requires Reached(w, s, es, done, MigrateWipe(ref, d), Finished(true))
    ensures BothSucceed(w, s, es + [MIGRATE_STEP])
    ensures PlainRun(w, s, es + [MIGRATE_STEP]).value.p == ApplyPlain(done, Away(w, done, d, ref))
  {
    MigrateGoes(w, s, es, done, MigrateWipe(ref, d), Finished(true), ApplyPlain(done, Away(w, done, d, ref)),
                Finished(true));
  }

  /** A whole Set between two steps of the Migrate. */
  lemma SetsAll(w: World, s: PlainSystem, es: seq<Event>, home: Plain, migrate: Op, ref: string, v: string)
    requires home.cfg.default != DB && ValidExternalRefName(ref)
    requires Login(w, home, home.cfg.default).Some? && Reached(w, s, es, home, migrate, SetOp(ref, v))
    ensures var d := home.cfg.default;
            var z := ApplyPlain(home, Reach(d, WriteExt(w, home, d, ExternalRef(ref), v).value));
            Reached(w, s, es + [SET_STEP] + [SET_STEP] + [SET_STEP], ApplyPlain(z, PutRef(ref, d, Pointer(d, ref))),
                    migrate, Finished(true))
  {
    var d := home.cfg.default;
    var x := WriteExt(w, home, d, ExternalRef(ref), v).value;
    var z := ApplyPlain(home, Reach(d, x));
    SetGoes(w, s, es, home, migrate, SetOp(ref, v), home, SetWrite(ref, v, d));
    assert OpStep(w, home, SetWrite(ref, v, d), true) == (Reach(d, x), SetPoint(ref, d));
    SetGoes(w, s, es + [SET_STEP], home, migrate, SetWrite(ref, v, d), z, SetPoint(ref, d));
    SetGoes(w, s, es + [SET_STEP] + [SET_STEP], z, migrate, SetPoint(ref, d),
            ApplyPlain(z, PutRef(ref, d, Pointer(d, ref))), Finished(true));
  }

  /** The row just brought home was a pointer into the default, so the default's login does not need it. */
  lemma HomeLogin(w: World, p: Plain, ref: string, x: string)
    requires var d := p.cfg.default;
             d != DB && ref in p.rows && p.rows[ref].Points? && Login(w, p, d).Some?
    ensures var d := p.cfg.default;
            var home := ApplyPlain(Used(p, d), PutDb(ref, x));
            && home.cfg == p.cfg && Login(w, home, d) == Login(w, p, d) && !LocksItselfOut(p.cfg, ref)
            && (d == ASM ==> home.client.Some?)
  {
    var d := p.cfg.default;
    UsingIsUnseen(w, p, d);
    if Needs(p.cfg, p.client, d, ref) { NeededLogin(w, p, d, ref); }
    OtherLogin(w, Used(p, d), ApplyPlain(Used(p, d), PutDb(ref, x)), d, ref);
  }

  lemma FlipThenWipe(w: World, home: Plain, z: Plain, ref: string, v: string)
    requires var d := home.cfg.default;
             && d != DB && ValidExternalRefName(ref) && !LocksItselfOut(home.cfg, ref)
             && WriteExt(w, home, d, ExternalRef(ref), v).Some?
             && z == ApplyPlain(home, Reach(d, WriteExt(w, home, d, ExternalRef(ref), v).value))
    ensures var d := home.cfg.default;
            var done := ApplyPlain(z, PutRef(ref, d, Pointer(d, ref)));
            && PlainResolve(w, done, ref) == Value(v)
            && PlainResolve(w, ApplyPlain(done, Away(w, done, d, ref)), ref) == Failed
  {
    var d := home.cfg.default;
    WriteReads(w, home, z, d, ref, v);
    IdleFlip(w, z, ref, v);
    PointerAims(w, d, ref, v);
    WipeFails(w, ApplyPlain(z, PutRef(ref, d, Pointer(d, ref))), d, ref, Pointer(d, ref));
  }

  lemma WriteReads(w: World, home: Plain, z: Plain, d: Backend, ref: string, v: string)
    requires d != DB && ValidExternalRefName(ref) && WriteExt(w, home, d, ExternalRef(ref), v).Some?
    requires z == ApplyPlain(home, Reach(d, WriteExt(w, home, d, ExternalRef(ref), v).value))
    ensures z.cfg == home.cfg && ReadExt(w, z, d, Pointer(d, ref)) == Some(v) && (d == ASM ==> z.client.Some?)
  {
    PointerAims(w, d, ref, v);
    OwnRead(w, home, d, ref, v, d, Pointer(d, ref));
  }

  lemma WipeFails(w: World, done: Plain, d: Backend, ref: string, r: string)
    requires ref in done.rows && done.rows[ref] == Points(d, r) && Aims(w, Points(d, r), d, ref)
    ensures PlainResolve(w, ApplyPlain(done, Away(w, done, d, ref)), ref) == Failed
  {
    AwayRead(w, done, d, ref, d, r);
  }

  // ---------------------------------------------------------------- a Resolve in two reads

  predicate Pointing(p: Plain, ref: string, b: Backend, r: string) {
    ref in p.rows && p.rows[ref] == Points(b, r)
  }

  /** The events that can change what a pointer reads: writing or wiping the object it names, changing a row
      that a login reads, new settings, and a dropped client. */
  predicate Unsettles(w: World, s: PlainSystem, e: Event, b: Backend, r: string) {
    match e
    case Configure(_) => true
    case Forget => true
    case Act(k, _, _) =>
      k in s.ops && !s.ops[k].Finished?
      && var op := s.ops[k];
         || (NameOf(w, b, r) == OwnName(w, b, op.ref)
             && ((op.SetWrite? && op.backend == b) || (op.MigrateWrite? && op.target == b)
                 || (op.MigrateWipe? && op.source == b) || (op.DeleteWipe? && op.backend == b)))
         || (op.ref in LoginRefs(s.p.cfg)
             && (op.SetWrite? || op.SetPoint? || op.MigrateWrite? || op.MigratePoint? || op.DeleteLast?))
    case _ => false
  }

  lemma OnlyTheseUnsettle(w: World, s: PlainSystem, e: Event, b: Backend, r: string)
    requires PlainNext(w, s, e).Some? && !Unsettles(w, s, e, b, r)
    ensures ReadExt(w, PlainNext(w, s, e).value.p, b, r) == ReadExt(w, s.p, b, r)
  {
    match e
    case Act(k, up, _) => if !s.ops[k].Finished? { ActUnsettles(w, s.p, s.ops[k], up, b, r); }
    case Fetch(k, up) =>
      if up {
        UsingIsUnseen(w, s.p, s.readers[k].backend);
        ReadFrame(w, s.p, Used(s.p, s.readers[k].backend), b, r);
      }
    case _ =>
  }

  lemma ActUnsettles(w: World, q: Plain, op: Op, up: bool, b: Backend, r: string)
    requires !op.Finished?
    requires NameOf(w, b, r) == OwnName(w, b, op.ref) ==>
               && !(op.SetWrite? && op.backend == b) && !(op.MigrateWrite? && op.target == b)
               && !(op.MigrateWipe? && op.source == b) && !(op.DeleteWipe? && op.backend == b)
    requires op.ref in LoginRefs(q.cfg) ==>
               !op.SetWrite? && !op.SetPoint? && !op.MigrateWrite? && !op.MigratePoint? && !op.DeleteLast?
    ensures ReadExt(w, ApplyPlain(q, OpStep(w, q, op, up).0), b, r) == ReadExt(w, q, b, r)
  {
    var e := OpStep(w, q, op, up).0;
    match e
    case Reach(c, x) => ReachReads(w, q, op, up, b, r);
    case Nothing =>
    case _ =>
      LoginApart(w, q, ApplyPlain(q, e), op.ref);
      ReadFrame(w, q, ApplyPlain(q, e), b, r);
  }

  lemma ReachReads(w: World, q: Plain, op: Op, up: bool, b: Backend, r: string)
    requires !op.Finished? && OpStep(w, q, op, up).0.Reach?
    requires NameOf(w, b, r) == OwnName(w, b, op.ref) ==>
               && !(op.SetWrite? && op.backend == b) && !(op.MigrateWrite? && op.target == b)
               && !(op.MigrateWipe? && op.source == b) && !(op.DeleteWipe? && op.backend == b)
    ensures ReadExt(w, ApplyPlain(q, OpStep(w, q, op, up).0), b, r) == ReadExt(w, q, b, r)
  {
    var e := OpStep(w, q, op, up).0;
    UsingIsUnseen(w, q, e.backend);
    if e.ext == q.ext {
      ReadFrame(w, q, ApplyPlain(q, e), b, r);
    } else if op.SetWrite? || op.MigrateWrite? {
      var c, v := if op.SetWrite? then op.backend else op.target, op.value;
      assert WriteExt(w, q, c, ExternalRef(op.ref), v).Some?
          && e == Reach(c, WriteExt(w, q, c, ExternalRef(op.ref), v).value);
      ThroughRead(w, q, c, op.ref, v, b, r);
    } else {
      assert op.MigrateWipe? || op.DeleteWipe?;
      AwayRead(w, q, if op.MigrateWipe? then op.source else op.backend, op.ref, b, r);
    }
  }

  /** After `i` events the ref answered this. */
  ghost predicate CurrentAt(w: World, s: PlainSystem, es: seq<Event>, i: nat, ref: string, answer: Result)
    requires i <= |es|
  {
    PlainRun(w, s, es[..i]).Some? && PlainResolve(w, PlainRun(w, s, es[..i]).value.p, ref) == answer
  }

  /** Event `i` changed what the pointer reads, the row having left it. */
  ghost predicate UnsettledAt(w: World, s: PlainSystem, es: seq<Event>, i: nat, ref: string, b: Backend, r: string)
    requires i < |es|
  {
    && PlainRun(w, s, es[..i]).Some? && Unsettles(w, PlainRun(w, s, es[..i]).value, es[i], b, r)
    && PlainRun(w, s, es[..i+1]).Some? && !Pointing(PlainRun(w, s, es[..i+1]).value.p, ref, b, r)
  }

  /** The pointer read is what the ref answered at some moment since it was looked up, unless the row had left
      that pointer and an event then changed what it reads. */
  ghost predicate CurrentUnlessUnsettled(w: World, s: PlainSystem, es: seq<Event>, ref: string, b: Backend, r: string,
                                         answer: Result)
  {
    || (exists i | 0 <= i <= |es| :: CurrentAt(w, s, es, i, ref, answer))
    || (exists i | 0 <= i < |es| :: UnsettledAt(w, s, es, i, ref, b, r))
  }

  lemma {:induction false} ReadSince(w: World, s: PlainSystem, es: seq<Event>, ref: string, b: Backend, r: string)
    requires Pointing(s.p, ref, b, r) && PlainRun(w, s, es).Some?
    ensures CurrentUnlessUnsettled(w, s, es, ref, b, r, Outcome(ReadExt(w, PlainRun(w, s, es).value.p, b, r)))
    decreases |es|
  {
    var q := PlainRun(w, s, es).value.p;
    assert es[..|es|] == es;
    if Pointing(q, ref, b, r) {
      assert CurrentAt(w, s, es, |es|, ref, Outcome(ReadExt(w, q, b, r)));
    } else {
      assert es != [];
      var front, e := es[..|es|-1], es[|es|-1];
      assert es == front + [e];
      RunPrefix(w, s, front, e);
      var before := PlainRun(w, s, front).value;
      ReadSince(w, s, front, ref, b, r);
      if !Unsettles(w, before, e, b, r) {
        OnlyTheseUnsettle(w, before, e, b, r);
        Extend(w, s, front, e, ref, b, r, Outcome(ReadExt(w, q, b, r)));
      } else {
        assert es[..|es|-1] == front;
        assert UnsettledAt(w, s, es, |es| - 1, ref, b, r);
      }
    }
  }

  lemma Extend(w: World, s: PlainSystem, front: seq<Event>, e: Event, ref: string, b: Backend, r: string,
               answer: Result)
    requires CurrentUnlessUnsettled(w, s, front, ref, b, r, answer)
    ensures CurrentUnlessUnsettled(w, s, front + [e], ref, b, r, answer)
  {
    if i :| 0 <= i <= |front| && CurrentAt(w, s, front, i, ref, answer) {
      assert (front + [e])[..i] == front[..i];
      assert CurrentAt(w, s, front + [e], i, ref, answer);
    } else {
      var i :| 0 <= i < |front| && UnsettledAt(w, s, front, i, ref, b, r);
      assert (front + [e])[..i] == front[..i] && (front + [e])[..i+1] == front[..i+1];
      assert UnsettledAt(w, s, front + [e], i, ref, b, r);
    }
  }

  lemma {:induction false} StillLooking(w: World, s: PlainSystem, es: seq<Event>, k: nat)
    requires k in s.readers && PlainRun(w, s, es).Some?
    requires forall i | 0 <= i < |es| :: !(es[i].Fetch? && es[i].k == k)
    ensures k in PlainRun(w, s, es).value.readers && PlainRun(w, s, es).value.readers[k] == s.readers[k]
    decreases |es|
  {
    if es != [] { StillLooking(w, PlainNext(w, s, es[0]).value, es[1..], k); }
  }

  /** A Resolve answers from one moment of its call, in every run: a row in db storage when it is read; an
      external one at its lookup, at its fetch or between, unless the row had left the pointer it holds and one
      of the named events changed the object or the login under it. */
  lemma ResolveIsCurrent(w: World, s: PlainSystem, k: nat, ref: string, es: seq<Event>)
    requires k !in s.readers
    requires forall i | 0 <= i < |es| :: !(es[i].Fetch? && es[i].k == k)
    requires PlainRun(w, PlainNext(w, s, Look(k, ref)).value, es + [Fetch(k, true)]).Some?
    ensures var looked := PlainNext(w, s, Look(k, ref)).value;
            var f := PlainRun(w, looked, es + [Fetch(k, true)]).value;
            && looked.readers[k].Looked? && k in f.readers && f.readers[k].Answered? && f.readers[k].ref == ref
            && CurrentUnlessUnsettled(w, looked, es, ref, looked.readers[k].backend,
                                      looked.readers[k].backendRef, f.readers[k].result)
  {
    var looked := PlainNext(w, s, Look(k, ref)).value;
    RunPrefix(w, looked, es, Fetch(k, true));
    StillLooking(w, looked, es, k);
    ReadSince(w, looked, es, ref, looked.readers[k].backend, looked.readers[k].backendRef);
  }

  lemma LookIsCurrent(w: World, s: PlainSystem, k: nat, ref: string)
    requires k !in s.readers && PlainNext(w, s, Look(k, ref)).value.readers[k].Answered?
    ensures PlainNext(w, s, Look(k, ref)).value.readers[k] == Answered(ref, PlainResolve(w, s.p, ref))
  {
  }
}
