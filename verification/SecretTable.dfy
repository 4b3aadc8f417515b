/** The secret store as an object over its table (internal/secretstore/secretstore.go): every method is the
    run of steps the operation is specified by. */
module SecretTable {
  import opened Options
  import opened SecretStore

  /** A db row that opens, but only in the legacy format. */
  predicate Legacy(w: World, rows: map<string, Row>, r: string) {
    r in rows && rows[r].DbRow? && w.aead.open(r, rows[r].box) == None && w.aead.open("", rows[r].box).Some?
  }

  /** A db row that opens at all opens with its own ref bound. */
  predicate Bound(w: World, rows: map<string, Row>, r: string) {
    r in rows && rows[r].DbRow? && OpenDB(w, r, rows[r].box).Some? ==> w.aead.open(r, rows[r].box).Some?
  }

  /** Midway through a sweep of `candidates`: `todo` is left, `done` has been resealed. */
  ghost predicate Swept(w: World, was: map<string, Row>, rows: map<string, Row>, candidates: map<string, Box>,
                        todo: set<string>, done: set<string>)
  {
    && rows.Keys == was.Keys && todo !! done && todo <= candidates.Keys && done <= candidates.Keys
    && (forall r :: r in candidates <==> r in was && was[r].DbRow? && w.aead.open(r, was[r].box) == None)
    && (forall r | r in candidates :: was[r] == DbRow(candidates[r]))
    && (forall r | r in done :: Legacy(w, was, r) && Bound(w, rows, r))
    && (forall r | r in candidates && r !in todo && r !in done :: !Legacy(w, was, r))
    && (forall r | r in rows && r !in done :: rows[r] == was[r])
  }

  lemma SweptNext(w: World, was: map<string, Row>, before: map<string, Row>, rows: map<string, Row>,
                  candidates: map<string, Box>,
                  todo: set<string>, done: set<string>, r: string, ok: bool)
    requires Swept(w, was, before, candidates, todo, done) && r in todo
    requires ok == Legacy(w, before, r) && r in rows && rows == before[r := rows[r]]
    requires if ok then Bound(w, rows, r) else rows == before
    ensures Swept(w, was, rows, candidates, todo - {r}, if ok then done + {r} else done)
  {
    assert before[r] == was[r];
    forall q | q in done ensures Bound(w, rows, q) { assert rows[q] == before[q]; }
  }

  lemma SweptAll(w: World, was: map<string, Row>, rows: map<string, Row>, candidates: map<string, Box>,
                 done: set<string>)
    requires Swept(w, was, rows, candidates, {}, done)
    ensures rows.Keys == was.Keys && forall r :: Bound(w, rows, r)
    ensures |done| == |set r | r in was && Legacy(w, was, r)|
    ensures forall r | r in rows && !Legacy(w, was, r) :: rows[r] == was[r]
  {
    assert done == set r | r in was && Legacy(w, was, r);
  }

  lemma SweptStart(w: World, was: map<string, Row>, candidates: map<string, Box>)
    requires forall r :: r in candidates <==> r in was && was[r].DbRow? && w.aead.open(r, was[r].box) == None
    requires forall r | r in candidates :: was[r] == DbRow(candidates[r])
    ensures Swept(w, was, was, candidates, candidates.Keys, {})
  {
  }

  lemma SweptHas(w: World, was: map<string, Row>, rows: map<string, Row>, candidates: map<string, Box>,
                 todo: set<string>, done: set<string>, r: string)
    requires Swept(w, was, rows, candidates, todo, done) && r in todo
    ensures r in candidates && r in rows && rows[r] == DbRow(candidates[r]) && r !in done
    ensures w.aead.open(r, candidates[r]) == None
  {
  }

  /** Reading the row: its value, or where to fetch it. */
  lemma ReadsRow(w: World, p: Plain, ref: string, target: Backend, source: Backend)
    requires ref in p.rows
    ensures OpStep(w, p, MigrateRead(ref, target, source), true)
            == (Nothing, match p.rows[ref]
                         case Held(Some(v)) => MigrateWrite(ref, target, source, v)
                         case Held(None) => Finished(false)
                         case Points(b, r) => MigrateFetch(ref, target, source, b, r))
  {
  }

  /** The store object.  `ups` and `nonce` arguments are the outcomes of the calls a method makes
      and the randomness it draws; a crash is a call that never succeeds. */
  class Store {
    const w: World
    var rows: map<string, Row>
    var ext: External
    var cfg: Settings
    var client: Option<Client>

    constructor (w: World, rows: map<string, Row>, ext: External, cfg: Settings)
      ensures this.w == w && Now() == State(rows, ext, cfg, None)
    {
      this.w, this.rows, this.ext, this.cfg, client := w, rows, ext, cfg, None;
    }

    function Now(): State
      reads this
    {
      State(rows, ext, cfg, client)
    }

    function Seen(): Plain
      reads this
    {
      View(w, Now())
    }

    // ---------------------------------------------------------------- reading

    /** openDB's tail: the guarded UPDATE. */
    method ResealDB(ref: string, value: string, seen: Box, nonce: Bytes)
      requires Lawful(w) && OpenDB(w, ref, seen) == Some(value)
      modifies this`rows
      ensures Now() == CompareAndSwap(old(Now()), ref, seen, Seal(w, ref, value, nonce))
      ensures Seen() == old(Seen())
    {
      ResealIsInvisible(w, Now(), Pending(ref, seen, value), nonce);
      if ref in rows && rows[ref] == DbRow(seen) {
        rows := rows[ref := DbRow(Seal(w, ref, value, nonce))];
      }
    }

    /** Decrypt a row that was just read, upgrading a legacy one in place. */
    method OpenRow(ref: string, box: Box, nonce: Bytes) returns (v: Option<string>)
      requires Lawful(w)
      modifies this`rows
      ensures v == OpenDB(w, ref, box) && Seen() == old(Seen())
      ensures v.Some? && ref in old(rows) && old(rows)[ref] == DbRow(box) ==>
                ref in rows && rows[ref].DbRow? && w.aead.open(ref, rows[ref].box) == v
    {
      v := w.aead.open(ref, box);
      if v == None {
        v := w.aead.open("", box);
        if v.Some? {
          assert w.aead.open(ref, Seal(w, ref, v.value, nonce)) == v;
          ResealDB(ref, v.value, box, nonce);
        }
      }
    }

    /** asmClient: build it once, keep it. */
    method AsmClient() returns (c: Option<Client>)
      modifies this`client
      ensures c == SecretStore.AsmClient(old(Seen())) && Seen() == Used(old(Seen()), ASM)
    {
      if client.Some? {
        return client;
      }
      var settings := AsmSettings(cfg);
      if settings.auth == "keys" {
        var key := DbSecret(Seen(), AsmLoginRef(settings));
        if key == None {
          return None;
        }
        client := Some(Client(settings, key.value));
      } else {
        client := Some(Client(settings, ""));
      }
      c := client;
    }

    /** Log in to a backend; what it leaves behind is AWS's client. */
    method Reaching(b: Backend) returns (site: Option<Site>)
      modifies this`client
      ensures site == Login(w, old(Seen()), b) && Seen() == Used(old(Seen()), b)
    {
      match b {
        case Vault => site := VaultLogin(w, Seen());
        case ASM =>
          var c := AsmClient();
          site := AsmLogin(w, Seen());
        case DB => site := None;
      }
    }

    method ReadFrom(b: Backend, r: string) returns (v: Option<string>)
      modifies this`client
      ensures v == ReadExt(w, old(Seen()), b, r) && Seen() == Used(old(Seen()), b)
    {
      var site := Reaching(b);
      if site == None {
        return None;
      }
      var (id, field) := SplitRef(r, DefaultField(b));
      var at := Place(site.value, ObjectName(w, b, id));
      v := if at in ext then Extract(w, ext[at], field) else None;
    }

    method Resolve(ref: string, nonce: Bytes) returns (r: Result)
      requires Lawful(w)
      modifies this`rows, this`client
      ensures r == Answer(w, old(Now()), ref)
      ensures Seen() == if ref in old(rows) && old(rows)[ref].ExtRow? then Used(old(Seen()), old(rows)[ref].backend)
                        else old(Seen())
    {
      if ref !in rows {
        return NotFound;
      }
      match rows[ref] {
        case DbRow(box) =>
          var v := OpenRow(ref, box, nonce);
          r := Outcome(v);
        case ExtRow(b, at) =>
          var v := ReadFrom(b, at);
          r := Outcome(v);
      }
    }

    /** The sweep's read: the rows that do not open with their own ref bound. */
    method Unbound() returns (candidates: map<string, Box>)
      ensures forall r :: r in candidates <==> r in rows && rows[r].DbRow? && w.aead.open(r, rows[r].box) == None
      ensures forall r | r in candidates :: rows[r] == DbRow(candidates[r])
    {
      candidates := map[];
      var todo := rows.Keys;
      while todo != {}
        invariant todo <= rows.Keys
        invariant forall r :: r in candidates <==>
                    r in rows && r !in todo && rows[r].DbRow? && w.aead.open(r, rows[r].box) == None
        invariant forall r | r in candidates :: rows[r] == DbRow(candidates[r])
        decreases |todo|
      {
        var r :| r in todo;
        todo := todo - {r};
        if rows[r].DbRow? && w.aead.open(r, rows[r].box) == None {
          candidates := candidates[r := rows[r].box];
        }
      }
    }

    /** One candidate of the sweep; a row the legacy format does not open either is skipped. */
    method ResealOne(r: string, seen: Box, nonce: Bytes) returns (ok: bool)
      requires Lawful(w) && r in rows && rows[r] == DbRow(seen) && w.aead.open(r, seen) == None
      modifies this`rows
      ensures Seen() == old(Seen()) && ok == Legacy(w, old(rows), r)
      ensures r in rows && rows == old(rows)[r := rows[r]]
      ensures if ok then Bound(w, rows, r) else rows == old(rows)
    {
      var value := w.aead.open("", seen);
      ok := value.Some?;
      if ok {
        assert w.aead.open(r, Seal(w, r, value.value, nonce)) == value;
        ResealDB(r, value.value, seen, nonce);
      }
    }

    /** The startup sweep: reseal every unbound row the legacy format opens, skip the rest. */
    method ResealLegacy(draw: string -> Bytes) returns (resealed: nat)
      requires Lawful(w)
      modifies this`rows
      ensures Seen() == old(Seen()) && rows.Keys == old(rows).Keys
      ensures forall r :: Bound(w, rows, r)
      ensures forall r | r in rows && !Legacy(w, old(rows), r) :: rows[r] == old(rows)[r]
      ensures resealed == |set r | r in old(rows) && Legacy(w, old(rows), r)|
    {
      var candidates := Unbound();
      resealed := 0;
      var todo := candidates.Keys;
      ghost var was, done: set<string> := rows, {};
      SweptStart(w, was, candidates);
      while todo != {}
        invariant todo <= candidates.Keys && Seen() == old(Seen())
        invariant |done| == resealed && Swept(w, was, rows, candidates, todo, done)
        decreases |todo|
      {
        var r :| r in todo;
        var ok := SweepOne(r, candidates, draw(r), was, todo, done);
        todo := todo - {r};
        if ok {
          done := done + {r};
          resealed := resealed + 1;
        }
      }
      SweptAll(w, was, rows, candidates, done);
    }

    method SweepOne(r: string, candidates: map<string, Box>, nonce: Bytes, ghost was: map<string, Row>,
                    ghost todo: set<string>, ghost done: set<string>)
      returns (ok: bool)
      requires Lawful(w) && Swept(w, was, rows, candidates, todo, done) && r in todo
      modifies this`rows
      ensures Seen() == old(Seen()) && r !in done
      ensures Swept(w, was, rows, candidates, todo - {r}, if ok then done + {r} else done)
    {
      ghost var before := rows;
      SweptHas(w, was, rows, candidates, todo, done, r);
      ok := ResealOne(r, candidates[r], nonce);
      SweptNext(w, was, before, rows, candidates, todo, done, r, ok);
    }

    // ---------------------------------------------------------------- writing

    method PutRow(ref: string, value: string, nonce: Bytes)
      requires Lawful(w)
      modifies this`rows
      ensures Seen() == ApplyPlain(old(Seen()), PutDb(ref, value))
    {
      ApplyViews(w, Now(), PutDb(ref, value), nonce);
      rows := rows[ref := DbRow(Seal(w, ref, value, nonce))];
    }

    method PointRow(ref: string, b: Backend)
      requires Lawful(w)
      modifies this`rows
      ensures Seen() == ApplyPlain(old(Seen()), PutRef(ref, b, Pointer(b, ref)))
    {
      ApplyViews(w, Now(), PutRef(ref, b, Pointer(b, ref)), "");
      rows := rows[ref := ExtRow(b, Pointer(b, ref))];
    }

    /** writeVault, writeASM. */
    method WriteTo(b: Backend, ref: string, value: string) returns (ok: bool)
      modifies this`ext, this`client
      ensures forall next :: Through(w, old(Seen()), b, ref, value, next).1 == if ok then next else Finished(false)
      ensures forall next :: Seen() == ApplyPlain(old(Seen()), Through(w, old(Seen()), b, ref, value, next).0)
    {
      var site := Reaching(b);
      ok := site.Some?;
      if ok {
        ext := ext[Place(site.value, ObjectName(w, b, ExternalRef(ref))) := Stored(b, value)];
      }
    }

    /** deleteVault, deleteASM; best effort. */
    method RemoveFrom(b: Backend, ref: string, up: bool)
      modifies this`ext, this`client
      ensures Seen() == if up then ApplyPlain(old(Seen()), Away(w, old(Seen()), b, ref)) else old(Seen())
    {
      if up && b != DB {
        var site := Reaching(b);
        if site.Some? {
          ext := ext - {Place(site.value, ObjectName(w, b, ExternalRef(ref)))};
        }
      }
    }

    method Set(ref: string, value: string, nonce: Bytes, ups: seq<bool>) returns (ok: bool)
      requires Lawful(w) && |ups| == 3
      modifies this`rows, this`ext, this`client
      ensures OpRun(w, old(Seen()), SetOp(ref, value), ups) == (Seen(), Finished(ok))
    {
      if !ups[0] {
        FinishedStays(w, Seen(), false, ups[1..]);
        return false;
      }
      var rest := ups[1..];
      assert OpRun(w, Seen(), SetOp(ref, value), ups) == OpRun(w, Seen(), SetWrite(ref, value, cfg.default), rest);
      ok := SetThrough(ref, value, cfg.default, nonce, rest);
    }

    method SetThrough(ref: string, value: string, b: Backend, nonce: Bytes, ups: seq<bool>) returns (ok: bool)
      requires Lawful(w) && |ups| == 2
      modifies this`rows, this`ext, this`client
      ensures OpRun(w, old(Seen()), SetWrite(ref, value, b), ups) == (Seen(), Finished(ok))
    {
      var rest := ups[1..];
      if !ups[0] || (b != DB && !ValidExternalRefName(ref)) {
        FinishedStays(w, Seen(), false, rest);
        return false;
      }
      if b == DB {
        PutRow(ref, value, nonce);
        FinishedStays(w, Seen(), true, rest);
        return true;
      }
      ok := WriteTo(b, ref, value);
      if !ok {
        FinishedStays(w, Seen(), false, rest);
        return;
      }
      assert OpRun(w, old(Seen()), SetWrite(ref, value, b), ups) == OpRun(w, Seen(), SetPoint(ref, b), rest);
      ok := rest[0];
      if ok {
        PointRow(ref, b);
      }
      FinishedStays(w, Seen(), ok, rest[1..]);
    }

    /** The refs no Migrate may take out of db storage, and no Delete remove; two reads. */
    method Refuses(ref: string) returns (refused: bool)
      ensures refused == (ref in BootstrapRefs(cfg))
    {
      refused := ref in VaultRefs(cfg) || ref in AsmRefs(cfg);
    }

    method Migrate(ref: string, target: Backend, nonce: Bytes, ups: seq<bool>) returns (ok: bool)
      requires Lawful(w) && |ups| == 8
      modifies this`rows, this`ext, this`client
      ensures OpRun(w, old(Seen()), MigrateOp(ref, target), ups) == (Seen(), Finished(ok))
    {
      ghost var all := OpRun(w, Seen(), MigrateOp(ref, target), ups);
      var rest := ups[1..];
      if !ups[0] {
        FinishedStays(w, Seen(), false, rest);
        return false;
      }
      if target != DB {
        assert all == OpRun(w, Seen(), MigrateCheck(ref, target, VaultRefs(cfg)), rest);
        var refused := Refuses(ref);
        if !rest[0] || refused {
          FinishedStays(w, Seen(), false, rest[1..]);
          return false;
        }
        rest := rest[1..];
      }
      assert all == OpRun(w, Seen(), MigrateRow(ref, target), rest);
      ok := MigrateFound(ref, target, nonce, rest);
    }

    method MigrateFound(ref: string, target: Backend, nonce: Bytes, ups: seq<bool>) returns (ok: bool)
      requires Lawful(w) && |ups| >= 6
      modifies this`rows, this`ext, this`client
      ensures OpRun(w, old(Seen()), MigrateRow(ref, target), ups) == (Seen(), Finished(ok))
    {
      ghost var all := OpRun(w, Seen(), MigrateRow(ref, target), ups);
      if !ups[0] || ref !in rows {
        FinishedStays(w, Seen(), false, ups[1..]);
        return false;
      }
      var source := RowBackend(PlainRowOf(w, ref, rows[ref]));
      if source == target {
        FinishedStays(w, Seen(), true, ups[1..]);
        return true;
      }
      assert all == OpRun(w, Seen(), MigrateRead(ref, target, source), ups[1..]);
      var value, rest := Current(ref, target, source, nonce, ups[1..]);
      if value == None {
        FinishedStays(w, Seen(), false, rest);
        return false;
      }
      assert all == OpRun(w, Seen(), MigrateWrite(ref, target, source, value.value), rest);
      ok := Move(ref, target, source, value.value, nonce, rest);
    }

    /** Migrate's read of the current value: a db row is opened (and resealed), a pointer is fetched. */
    method Current(ref: string, target: Backend, source: Backend, nonce: Bytes, ups: seq<bool>)
      returns (value: Option<string>, rest: seq<bool>)
      requires Lawful(w) && |ups| >= 2
      modifies this`rows, this`client
      ensures |rest| >= |ups| - 2
      ensures var next := if value.Some? then MigrateWrite(ref, target, source, value.value) else Finished(false);
              OpRun(w, old(Seen()), MigrateRead(ref, target, source), ups) == OpRun(w, Seen(), next, rest)
    {
      ghost var p, op := Seen(), MigrateRead(ref, target, source);
      rest := ups[1..];
      if !ups[0] || ref !in rows {
        StepOf(w, p, op, ups, p, Finished(false));
        return None, rest;
      }
      ReadsRow(w, p, ref, target, source);
      match rows[ref] {
        case DbRow(box) =>
          value := OpenRow(ref, box, nonce);
          StepOf(w, p, op, ups, p,
                 if value.Some? then MigrateWrite(ref, target, source, value.value) else Finished(false));
        case ExtRow(b, r) =>
          StepOf(w, p, op, ups, p, MigrateFetch(ref, target, source, b, r));
          value, rest := Fetched(ref, target, source, b, r, rest);
      }
    }

    method Fetched(ref: string, target: Backend, source: Backend, b: Backend, r: string, ups: seq<bool>)
      returns (value: Option<string>, rest: seq<bool>)
      requires ups != []
      modifies this`client
      ensures rest == ups[1..]
      ensures var next := if value.Some? then MigrateWrite(ref, target, source, value.value) else Finished(false);
              OpRun(w, old(Seen()), MigrateFetch(ref, target, source, b, r), ups) == OpRun(w, Seen(), next, rest)
    {
      ghost var p, op := Seen(), MigrateFetch(ref, target, source, b, r);
      rest := ups[1..];
      if !ups[0] {
        StepOf(w, p, op, ups, p, Finished(false));
        return None, rest;
      }
      value := ReadFrom(b, r);
      StepOf(w, p, op, ups, Seen(),
             if value.Some? then MigrateWrite(ref, target, source, value.value) else Finished(false));
    }

    /** Write the new home, flip the row, wipe the old home; in that order. */
    method Move(ref: string, target: Backend, source: Backend, value: string, nonce: Bytes, ups: seq<bool>)
      returns (ok: bool)
      requires Lawful(w) && |ups| >= 3
      modifies this`rows, this`ext, this`client
      ensures OpRun(w, old(Seen()), MigrateWrite(ref, target, source, value), ups) == (Seen(), Finished(ok))
    {
      ghost var all := OpRun(w, Seen(), MigrateWrite(ref, target, source, value), ups);
      var rest := ups[1..];
      if target == DB && ups[0] {
        PutRow(ref, value, nonce);
      } else {
        ok, rest := MoveOut(ref, target, source, value, ups);
        if !ok {
          return;
        }
      }
      assert all == OpRun(w, Seen(), MigrateWipe(ref, source), rest);
      RemoveFrom(source, ref, rest[0]);
      FinishedStays(w, Seen(), true, rest[1..]);
      ok := true;
    }

    /** The new home in an external system, then the flip. */
    method MoveOut(ref: string, target: Backend, source: Backend, value: string, ups: seq<bool>)
      returns (ok: bool, rest: seq<bool>)
      requires Lawful(w) && |ups| >= 3 && (target == DB ==> !ups[0])
      modifies this`rows, this`ext, this`client
      ensures |rest| >= |ups| - 2
      ensures OpRun(w, old(Seen()), MigrateWrite(ref, target, source, value), ups)
              == if ok then OpRun(w, Seen(), MigrateWipe(ref, source), rest) else (Seen(), Finished(false))
    {
      rest := ups[1..];
      ok := CopyOut(ref, target, source, value, ups);
      if !ok {
        FinishedStays(w, Seen(), false, rest);
        return;
      }
      ghost var p, op := Seen(), MigratePoint(ref, target, source);
      if !rest[0] {
        StepOf(w, p, op, rest, p, Finished(false));
        return false, rest;
      }
      PointRow(ref, target);
      StepOf(w, p, op, rest, Seen(), MigrateWipe(ref, source));
      rest := rest[1..];
    }

    method CopyOut(ref: string, target: Backend, source: Backend, value: string, ups: seq<bool>) returns (ok: bool)
      requires Lawful(w) && ups != [] && (target == DB ==> !ups[0])
      modifies this`ext, this`client
      ensures OpRun(w, old(Seen()), MigrateWrite(ref, target, source, value), ups)
              == OpRun(w, Seen(), if ok then MigratePoint(ref, target, source) else Finished(false), ups[1..])
    {
      ghost var p, op := Seen(), MigrateWrite(ref, target, source, value);
      if !ups[0] || !ValidExternalRefName(ref) {
        StepOf(w, p, op, ups, p, Finished(false));
        return false;
      }
      ok := WriteTo(target, ref, value);
      StepOf(w, p, op, ups, Seen(), if ok then MigratePoint(ref, target, source) else Finished(false));
    }

    method Delete(ref: string, ups: seq<bool>) returns (ok: bool)
      requires Lawful(w) && |ups| == 5
      modifies this`rows, this`ext, this`client
      ensures OpRun(w, old(Seen()), DeleteOp(ref), ups) == (Seen(), Finished(ok))
    {
      ghost var all := OpRun(w, Seen(), DeleteOp(ref), ups);
      var rest := ups[1..];
      if !ups[0] {
        FinishedStays(w, Seen(), false, rest);
        return false;
      }
      assert all == OpRun(w, Seen(), DeleteCheck(ref, VaultRefs(cfg)), rest);
      var refused := Refuses(ref);
      if !rest[0] || refused {
        FinishedStays(w, Seen(), false, rest[1..]);
        return false;
      }
      rest := rest[1..];
      assert all == OpRun(w, Seen(), DeleteLook(ref), rest);
      ok := DeleteFound(ref, rest);
    }

    method Owns(ref: string) returns (owns: bool)
      ensures owns == OwnsCopy(Seen(), ref)
    {
      owns := ref in rows && rows[ref].ExtRow? && SplitRef(rows[ref].backendRef, "").0 == ExternalRef(ref);
    }

    method DeleteFound(ref: string, ups: seq<bool>) returns (ok: bool)
      requires Lawful(w) && |ups| >= 3
      modifies this`rows, this`ext, this`client
      ensures OpRun(w, old(Seen()), DeleteLook(ref), ups) == (Seen(), Finished(ok))
    {
      ghost var p := Seen();
      if !ups[0] {
        StepOf(w, p, DeleteLook(ref), ups, p, Finished(false));
        return false;
      }
      var rest := ups[1..];
      var owns := Owns(ref);
      if owns {
        var b := rows[ref].backend;
        StepOf(w, p, DeleteLook(ref), ups, p, DeleteWipe(ref, b));
        RemoveFrom(b, ref, rest[0]);
        StepOf(w, p, DeleteWipe(ref, b), rest, Seen(), DeleteLast(ref));
        rest := rest[1..];
      } else {
        StepOf(w, p, DeleteLook(ref), ups, p, DeleteLast(ref));
      }
      ok := DeleteRow(ref, rest);
    }

    method DeleteRow(ref: string, ups: seq<bool>) returns (ok: bool)
      requires Lawful(w) && ups != []
      modifies this`rows
      ensures OpRun(w, old(Seen()), DeleteLast(ref), ups) == (Seen(), Finished(ok))
    {
      ghost var p := Seen();
      ok := ups[0];
      if ok {
        ApplyViews(w, Now(), RemoveRow(ref), "");
        rows := rows - {ref};
      }
      StepOf(w, p, DeleteLast(ref), ups, Seen(), Finished(ok));
    }
  }
}
