/** The backend settings table (internal/secretstore/backends.go): connection settings, and the one
    flag that says where new credentials go. */
module SecretBackends {
  import opened Options
  import opened SecretStore
  import opened SecretMoves

  datatype Config = Empty | VaultSettings(vault: VaultConfig) | AsmSettingsRow(asm: AsmConfig)

  datatype ConfigRow = ConfigRow(config: Config, isDefault: bool)

  type Table = map<Backend, ConfigRow>

  /** A decoded request body; `urlOk` is whether its address parses as an http(s) URL with a host. */
  datatype Raw =
    | VaultBody(vault: VaultConfig, urlOk: bool)
    | AsmBody(asm: AsmConfig)
    | Malformed

  function NormalizeVault(v: VaultConfig, urlOk: bool): Option<VaultConfig> {
    var m := v.(mount := Or(v.mount, DEFAULT_VAULT_MOUNT));
    if !urlOk then None
    else if v.auth == "" || v.auth == "token" then
      Some(m.(auth := "token", tokenRef := Or(v.tokenRef, DEFAULT_VAULT_TOKEN_REF)))
    else if v.auth == "approle" then
      (if v.roleId == "" then None
       else Some(m.(secretIdRef := Or(v.secretIdRef, DEFAULT_VAULT_SECRET_ID_REF))))
    else None
  }

  function NormalizeAsm(a: AsmConfig): Option<AsmConfig> {
    if a.auth == "" || a.auth == "chain" then Some(a.(auth := "chain"))
    else if a.auth == "profile" then (if a.profile == "" then None else Some(a))
    else if a.auth == "keys" then
      (if a.accessKeyId == "" then None
       else Some(a.(secretKeyRef := Or(a.secretKeyRef, DEFAULT_ASM_SECRET_KEY_REF))))
    else None
  }

  function Normalize(b: Backend, raw: Raw): Option<Config> {
    match (b, raw)
    case (Vault, VaultBody(v, ok)) =>
      (match NormalizeVault(v, ok) case Some(n) => Some(VaultSettings(n)) case None => None)
    case (ASM, AsmBody(a)) =>
      (match NormalizeAsm(a) case Some(n) => Some(AsmSettingsRow(n)) case None => None)
    case _ => None
  }

  /** The raw form a stored configuration would be saved again from. */
  function Again(c: Config): Raw {
    match c
    case VaultSettings(v) => VaultBody(v, true)
    case AsmSettingsRow(a) => AsmBody(a)
    case Empty => Malformed
  }

  /** Normalizing twice is normalizing once, and a normalized backend logs in with no ref that
      Migrate and Delete do not refuse. */
  lemma NormalizeSettles(b: Backend, raw: Raw)
    requires Normalize(b, raw).Some?
    ensures Normalize(b, Again(Normalize(b, raw).value)) == Normalize(b, raw)
    ensures LoginRefs(SettingsOf(map[b := ConfigRow(Normalize(b, raw).value, false)]))
              <= BootstrapRefs(SettingsOf(map[b := ConfigRow(Normalize(b, raw).value, false)]))
  {
  }

  /** What is given is kept; what is not is `other`. */
  ghost predicate KeptOr(given: string, stored: string, other: string) {
    if given != "" then stored == given else stored == other
  }

  /** Vault's settings are taken with an http(s) address and a token, or a role for an approle login; all that
      was given is stored as given, the mount and the ref of the login's secret are filled in. */
  lemma VaultStoredAsGiven(v: VaultConfig, urlOk: bool)
    ensures NormalizeVault(v, urlOk).Some? <==>
            urlOk && v.auth in {"", "token", "approle"} && (v.auth == "approle" ==> v.roleId != "")
    ensures match NormalizeVault(v, urlOk)
            case None => true
            case Some(n) =>
              && n.address == v.address && n.roleId == v.roleId
              && KeptOr(v.auth, n.auth, "token") && KeptOr(v.mount, n.mount, "secret")
              && KeptOr(v.tokenRef, n.tokenRef, if n.auth == "token" then "VAULT_TOKEN" else "")
              && KeptOr(v.secretIdRef, n.secretIdRef, if n.auth == "approle" then "VAULT_SECRET_ID" else "")
  {
  }

  /** AWS's with the machine's own login, a named profile, or a named key. */
  lemma AsmStoredAsGiven(a: AsmConfig)
    ensures NormalizeAsm(a).Some? <==>
            && a.auth in {"", "chain", "profile", "keys"} && (a.auth == "profile" ==> a.profile != "")
            && (a.auth == "keys" ==> a.accessKeyId != "")
    ensures match NormalizeAsm(a)
            case None => true
            case Some(n) =>
              && n.region == a.region && n.profile == a.profile && n.accessKeyId == a.accessKeyId
              && KeptOr(a.auth, n.auth, "chain")
              && KeptOr(a.secretKeyRef, n.secretKeyRef, if n.auth == "keys" then "AWS_SECRET_ACCESS_KEY" else "")
  {
  }

  // ---------------------------------------------------------------- statements and transactions

  function Upserted(t: Table, b: Backend, c: Config): Table {
    t[b := ConfigRow(c, b in t && t[b].isDefault)]
  }

  /** INSERT the flag for `b`, keeping its settings if the row exists. */
  function Flagged(t: Table, b: Backend): Table {
    t[b := ConfigRow(if b in t then t[b].config else Empty, true)]
  }

  function Unflagged(t: Table): Table {
    map b | b in t :: t[b].(isDefault := false)
  }

  predicate AnyDefault(t: Table) {
    exists b | b in t :: t[b].isDefault
  }

  function Removed(t: Table, b: Backend): Table {
    var rest := t - {b};
    if AnyDefault(rest) then rest else Flagged(rest, DB)
  }

  datatype Change =
    | Configure(b: Backend, raw: Raw)
    | Unconfigure(b: Backend)
    | MakeDefault(b: Backend)

  /** A change's effect on the table; a refused change leaves it alone. */
  function Changed(t: Table, c: Change): Table {
    match c
    case Configure(b, raw) =>
      (match Normalize(b, raw) case Some(n) => Upserted(t, b, n) case None => t)
    case Unconfigure(b) => if b == DB then t else Removed(t, b)
    case MakeDefault(b) => if b != DB && b !in t then t else Flagged(Unflagged(t), b)
  }

  function Changes(t: Table, cs: seq<Change>): Table {
    if cs == [] then t else Changed(Changes(t, cs[..|cs|-1]), cs[|cs|-1])
  }

  /** The seed migration's table: built-in storage carries the flag. */
  const SEED: Table := map[DB := ConfigRow(Empty, true)]

  /** One default at most; external rows hold settings Normalize produced. */
  ghost predicate Sound(t: Table) {
    && (forall b, c | b in t && c in t && t[b].isDefault && t[c].isDefault :: b == c)
    && (Vault in t ==>
          t[Vault].config.VaultSettings? && Normalize(Vault, Again(t[Vault].config)) == Some(t[Vault].config))
    && (ASM in t ==> t[ASM].config.AsmSettingsRow? && Normalize(ASM, Again(t[ASM].config)) == Some(t[ASM].config))
  }

  function VaultOf(t: Table): Option<VaultConfig> {
    if Vault in t && t[Vault].config.VaultSettings? then Some(t[Vault].config.vault) else None
  }

  function AsmOf(t: Table): Option<AsmConfig> {
    if ASM in t && t[ASM].config.AsmSettingsRow? then Some(t[ASM].config.asm) else None
  }

  /** The backend new credentials go to: the flagged one, built-in storage when no row is flagged. */
  function DefaultOf(t: Table): Backend {
    if Vault in t && t[Vault].isDefault then Vault
    else if ASM in t && t[ASM].isDefault then ASM
    else DB
  }

  /** The settings as the secret store's operations read them. */
  function SettingsOf(t: Table): Settings {
    Settings(VaultOf(t), AsmOf(t), DefaultOf(t))
  }

  /** What a change does to the settings the secret store works with: configuring a backend replaces its own
      alone, unconfiguring it removes its own alone and hands the flag to built-in storage if it had it, and
      moving the flag touches no settings. */
  lemma ChangeReachesItsOwn(t: Table, c: Change)
    requires Sound(t)
    ensures var s, n := SettingsOf(t), SettingsOf(Changed(t, c));
            match c
            case Configure(Vault, VaultBody(v, ok)) =>
              n == s.(vault := if NormalizeVault(v, ok).Some? then NormalizeVault(v, ok) else s.vault)
            case Configure(ASM, AsmBody(a)) =>
              n == s.(asm := if NormalizeAsm(a).Some? then NormalizeAsm(a) else s.asm)
            case Configure(_, _) => n == s
            case Unconfigure(Vault) =>
              n == Settings(None, s.asm, if s.default == Vault then DB else s.default)
            case Unconfigure(ASM) =>
              n == Settings(s.vault, None, if s.default == ASM then DB else s.default)
            case Unconfigure(DB) => n == s
            case MakeDefault(b) => n == s.(default := if b == DB || b in t then b else s.default)
  {
  }

  lemma ChangedKeepsSound(t: Table, c: Change)
    requires Sound(t)
    ensures Sound(Changed(t, c))
  {
    if c.Configure? && Normalize(c.b, c.raw).Some? { NormalizeSettles(c.b, c.raw); }
  }

  /** Over every history of configuring, unconfiguring and switching: at most one default, and it is
      built-in or configured; once a row is flagged some row always is; every login secret of the
      configured backends is among the refused ones; and the settings are normalized. */
  lemma {:induction false} EveryHistoryIsSound(t: Table, cs: seq<Change>)
    requires Sound(t)
    ensures var u := Changes(t, cs);
            && Sound(u)
            && (DefaultOf(u) != DB ==> DefaultOf(u) in u)
            && (DefaultOf(u) == Vault ==> SettingsOf(u).vault.Some?)
            && (DefaultOf(u) == ASM ==> SettingsOf(u).asm.Some?)
            && Normalized(SettingsOf(u))
            && LoginRefs(SettingsOf(u)) <= BootstrapRefs(SettingsOf(u))
            && (AnyDefault(t) ==> AnyDefault(u))
  {
    if cs != [] {
      var before := Changes(t, cs[..|cs|-1]);
      EveryHistoryIsSound(t, cs[..|cs|-1]);
      ChangedKeepsSound(before, cs[|cs|-1]);
      if AnyDefault(t) { KeepsFlag(before, cs[|cs|-1]); }
    }
    SoundCoversLogins(Changes(t, cs));
  }

  lemma KeepsFlag(t: Table, c: Change)
    requires AnyDefault(t)
    ensures AnyDefault(Changed(t, c))
  {
    var b :| b in t && t[b].isDefault;
    var u := Changed(t, c);
    match c
    case Configure(_, _) => assert b in u && u[b].isDefault;
    case Unconfigure(_) => if u != t && !AnyDefault(t - {c.b}) { assert u[DB].isDefault; }
    case MakeDefault(d) => if u == t { assert u[b].isDefault; } else { assert u[d].isDefault; }
  }

  lemma SoundCoversLogins(t: Table)
    requires Sound(t)
    ensures Normalized(SettingsOf(t)) && LoginRefs(SettingsOf(t)) <= BootstrapRefs(SettingsOf(t))
  {
  }

  /** Under every default a history of the settings reaches, a Set that succeeds is what Resolve answers,
      exactly unless vault is the default and the ref is the one vault is logged in with; and every other
      ref answers exactly what the login that is left, and the object overwritten, let it read. */
  lemma SetThenResolveUnderAnyDefault(w: World, p: Plain, cs: seq<Change>, ref: string, v: string, ups: seq<bool>)
    requires p.cfg == SettingsOf(Changes(SEED, cs))
    requires OpRun(w, p, SetOp(ref, v), ups).1 == Finished(true)
    ensures var q := OpRun(w, p, SetOp(ref, v), ups).0;
            && (PlainResolve(w, q, ref) == Value(v) <==> !LocksItselfOut(p.cfg, ref))
            && (LocksItselfOut(p.cfg, ref) ==> DefaultOf(Changes(SEED, cs)) == Vault && ref in BootstrapRefs(p.cfg))
            && (forall o :: PlainResolve(w, q, o) == AnswerAfter(w, p, ref, v, ClientAfter(p), o))
  {
    EveryHistoryIsSound(SEED, cs);
    SetThenResolve(w, p, ref, v, ups);
    forall o
      ensures PlainResolve(w, OpRun(w, p, SetOp(ref, v), ups).0, o) == AnswerAfter(w, p, ref, v, ClientAfter(p), o)
    {
      SetTakesExactly(w, p, ref, v, ups, o);
    }
  }

  // ---------------------------------------------------------------- the object

  datatype BackendStatus = BackendStatus(backend: Backend, configured: bool, default: bool)

  class Backends {
    var rows: Table
    var client: Option<Client>   // the cached AWS client

    constructor ()
      ensures rows == SEED && client == None
    {
      rows, client := SEED, None;
    }

    method SetBackendConfig(b: Backend, raw: Raw) returns (stored: Option<Config>)
      modifies this
      ensures rows == Changed(old(rows), Change.Configure(b, raw))
      ensures stored == Normalize(b, raw)
      ensures client == if stored.Some? && b == ASM then None else old(client)
    {
      stored := Normalize(b, raw);
      if stored.Some? {
        rows := rows[b := ConfigRow(stored.value, b in rows && rows[b].isDefault)];
        if b == ASM {
          client := None;
        }
      }
    }

    method DeleteBackendConfig(b: Backend) returns (ok: bool)
      modifies this
      ensures rows == Changed(old(rows), Unconfigure(b))
      ensures ok == (b != DB) && (ok ==> AnyDefault(rows))
      ensures client == if b == ASM then None else old(client)
    {
      if b == DB { return false; }
      rows := rows - {b};
      if !AnyDefault(rows) {
        rows := rows[DB := ConfigRow(if DB in rows then rows[DB].config else Empty, true)];
        assert rows[DB].isDefault;
      }
      if b == ASM {
        client := None;
      }
      ok := true;
    }

    method SetDefaultBackend(b: Backend) returns (ok: bool)
      modifies this`rows
      ensures rows == Changed(old(rows), MakeDefault(b))
      ensures ok == (b == DB || b in old(rows))
      ensures ok ==> DefaultOf(rows) == b
    {
      if b != DB && b !in rows { return false; }
      var kept: map<Backend, ConfigRow> := map[];
      var todo := rows.Keys;
      while todo != {}
        invariant todo <= rows.Keys && rows == old(rows)
        invariant kept == map d | d in rows && d !in todo :: rows[d].(isDefault := false)
        decreases |todo|
      {
        var d :| d in todo;
        todo := todo - {d};
        kept := kept[d := rows[d].(isDefault := false)];
      }
      assert kept == Unflagged(old(rows));
      rows := kept[b := ConfigRow(if b in kept then kept[b].config else Empty, true)];
      ok := true;
    }

    /** SELECT backend WHERE is_default: whichever flagged row comes back. */
    method DefaultBackend() returns (b: Backend)
      requires Sound(rows)
      ensures b == DefaultOf(rows)
    {
      if AnyDefault(rows) {
        b :| b in rows && rows[b].isDefault;
      } else {
        b := DB;
      }
    }

    /** SELECT backend, is_default, row by row. */
    method Scan() returns (state: map<Backend, bool>, anyDefault: bool)
      ensures state == map d | d in rows :: rows[d].isDefault
      ensures anyDefault <==> AnyDefault(rows)
    {
      state, anyDefault := map[], false;
      var todo := rows.Keys;
      while todo != {}
        invariant todo <= rows.Keys
        invariant state == map d | d in rows && d !in todo :: rows[d].isDefault
        invariant anyDefault <==> exists d | d in rows && d !in todo :: rows[d].isDefault
        decreases |todo|
      {
        var d :| d in todo;
        todo := todo - {d};
        state := state[d := rows[d].isDefault];
        anyDefault := anyDefault || rows[d].isDefault;
      }
    }

    /** The listing names the same single default. */
    method List() returns (out: seq<BackendStatus>)
      requires Sound(rows)
      ensures |out| == 3 && out[0].backend == DB && out[1].backend == Vault && out[2].backend == ASM
      ensures forall i | 0 <= i < 3 :: out[i].default <==> out[i].backend == DefaultOf(rows)
      ensures forall i | 0 <= i < 3 :: out[i].configured <==> out[i].backend == DB || out[i].backend in rows
    {
      var state, anyDefault := Scan();
      out := [BackendStatus(DB, true, (DB in state && state[DB]) || !anyDefault)];
      assert out[0].default <==> DefaultOf(rows) == DB;
      for i := 0 to 2
        invariant |out| == i + 1
        invariant out[0].backend == DB && (i > 0 ==> out[1].backend == Vault) && (i > 1 ==> out[2].backend == ASM)
        invariant forall j | 0 <= j < |out| :: out[j].default <==> out[j].backend == DefaultOf(rows)
        invariant forall j | 0 <= j < |out| :: out[j].configured <==> out[j].backend == DB || out[j].backend in rows
      {
        var b := [Vault, ASM][i];
        out := out + [BackendStatus(b, b in state, b in state && state[b])];
      }
    }
  }
}
