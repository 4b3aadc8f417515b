/** The secret store (internal/secretstore): named secrets kept encrypted in a table, or in
    Vault / AWS Secrets Manager with only a pointer in the table. */
module SecretStore {
  import opened Options

  type Bytes = string

  /** A sealed value and its nonce. */
  datatype Box = Box(ct: Bytes, nonce: Bytes)

  /** AES-256-GCM under the master key.  `open` with the empty additional data is the legacy format. */
  datatype Aead = Aead(seal: (Bytes, string, string) -> Bytes, open: (string, Box) -> Option<string>)

  datatype Backend = DB | Vault | ASM

  datatype Row =
    | DbRow(box: Box)
    | ExtRow(backend: Backend, backendRef: string)

  datatype VaultConfig = VaultConfig(address: string, mount: string, auth: string,
                                     tokenRef: string, roleId: string, secretIdRef: string)

  datatype AsmConfig = AsmConfig(region: string, auth: string, profile: string,
                                 accessKeyId: string, secretKeyRef: string)

  /** The saved connection settings, `None` where a backend was never configured. */
  datatype Settings = Settings(vault: Option<VaultConfig>, asm: Option<AsmConfig>, default: Backend)

  /** A configured AWS client: the settings and the secret key it was built from. */
  datatype Client = Client(config: AsmConfig, key: string)

  /** Whose storage a login reaches: a Vault mount, or an AWS account. */
  datatype Site = VaultSite(address: string, mount: string) | AsmSite(account: string)

  /** An object in an external system, by its own name there. */
  datatype Place = Place(site: Site, name: string)

  datatype Object = Fields(fields: map<string, string>) | Text(text: string)

  /** What the external systems hold. */
  type External = map<Place, Object>

  /** The outside world: the cipher, what the external systems accept, the object an id or path
      names (an AWS id may be a name or an ARN), and JSON field extraction. */
  datatype World = World(
    aead: Aead,
    approleLogin: (string, string) -> Option<string>,
    vaultAccepts: (string, string) -> bool,
    asmAccount: Client -> Option<string>,
    named: (Backend, string) -> string,
    pluck: (string, string) -> Option<string>)

  /** What is sealed opens. */
  ghost predicate Lawful(w: World) {
    forall nonce, ref, v :: w.aead.open(ref, Box(w.aead.seal(nonce, ref, v), nonce)) == Some(v)
  }

  /** `client` is the AWS client the process has built, if any. */
  datatype State = State(rows: map<string, Row>, ext: External, cfg: Settings, client: Option<Client>)

  datatype Result = NotFound | Failed | Value(v: string)

  // ---------------------------------------------------------------- pointers

  function LastHash(s: string): (i: int)
    ensures -1 <= i < |s|
    ensures i >= 0 ==> s[i] == '#' && forall j | i < j < |s| :: s[j] != '#'
    ensures i < 0 ==> '#' !in s
  {
    if s == "" then -1
    else if s[|s|-1] == '#' then |s| - 1
    else LastHash(s[..|s|-1])
  }

  /** "ref#field" split at the last '#'. */
  function SplitRef(s: string, defaultField: string): (string, string) {
    var i := LastHash(s);
    if i >= 0 then (s[..i], s[i+1..]) else (s, defaultField)
  }

  function TrimSlash(s: string): string {
    if s != "" && s[0] == '/' then s[1..] else s
  }

  function ExternalRef(ref: string): string {
    "timothy/" + ref
  }

  /** The pointer a write-through stores for `ref`. */
  function Pointer(backend: Backend, ref: string): string {
    if backend == Vault then ExternalRef(ref) + "#value" else ExternalRef(ref)
  }

  predicate RefChar(c: char) {
    'A' <= c <= 'Z' || 'a' <= c <= 'z' || '0' <= c <= '9' || c == '_' || c == '.' || c == '-'
  }

  predicate ValidExternalRefName(ref: string) {
    && 1 <= |ref| <= 128
    && (forall i | 0 <= i < |ref| :: RefChar(ref[i]))
    && (forall i | 0 <= i < |ref| - 1 :: !(ref[i] == '.' && ref[i+1] == '.'))
  }

  /** Splitting a stored pointer gives back path and field. */
  lemma SplitPointer(backend: Backend, ref: string, field: string)
    requires backend == Vault || '#' !in ref
    ensures SplitRef(Pointer(backend, ref), field) == (ExternalRef(ref), if backend == Vault then "value" else field)
  {
    var s := Pointer(backend, ref);
    if backend == Vault {
      assert s[|ExternalRef(ref)|] == '#';
      assert s[|ExternalRef(ref)| + 1..] == "value";
      assert forall j | |ExternalRef(ref)| < j < |s| :: s[j] == "value"[j - |ExternalRef(ref)| - 1];
      assert LastHash(s) == |ExternalRef(ref)|;
      assert s[..LastHash(s)] == ExternalRef(ref);
    } else {
      forall j | 0 <= j < |s| ensures s[j] != '#' {
        if j >= 8 { assert s[j] == ref[j - 8]; }
      }
    }
  }

  // ---------------------------------------------------------------- reading

  const DEFAULT_VAULT_TOKEN_REF := "VAULT_TOKEN"
  const DEFAULT_VAULT_SECRET_ID_REF := "VAULT_SECRET_ID"
  const DEFAULT_ASM_SECRET_KEY_REF := "AWS_SECRET_ACCESS_KEY"
  const DEFAULT_VAULT_MOUNT := "secret"

  function Or(s: string, default: string): string {
    if s == "" then default else s
  }

  /** Opening a db row: the current format first, then the legacy one. */
  function OpenDB(w: World, ref: string, box: Box): Option<string> {
    match w.aead.open(ref, box)
    case Some(v) => Some(v)
    case None => w.aead.open("", box)
  }

  /** What a row says once decryption is out of the way. */
  datatype PlainRow =
    | Held(value: Option<string>)
    | Points(backend: Backend, backendRef: string)

  /** The store as its callers can see it: no ciphertext, no format. */
  datatype Plain = Plain(rows: map<string, PlainRow>, ext: External, cfg: Settings, client: Option<Client>)

  function PlainRowOf(w: World, ref: string, row: Row): PlainRow {
    match row
    case DbRow(box) => Held(OpenDB(w, ref, box))
    case ExtRow(b, r) => Points(b, r)
  }

  function View(w: World, s: State): Plain {
    Plain(map ref | ref in s.rows :: PlainRowOf(w, ref, s.rows[ref]), s.ext, s.cfg, s.client)
  }

  /** A backend's own login secret, readable only from db storage. */
  function DbSecret(p: Plain, ref: string): Option<string> {
    if ref in p.rows && p.rows[ref].Held? then p.rows[ref].value else None
  }

  function VaultLoginRef(c: VaultConfig): string {
    if c.auth == "approle" then c.secretIdRef else Or(c.tokenRef, DEFAULT_VAULT_TOKEN_REF)
  }

  /** A vault client token from the login secret: the secret itself, or what an AppRole login returns. */
  function VaultToken(w: World, c: VaultConfig, secret: string): Option<string> {
    if c.auth != "approle" then Some(secret)
    else match w.approleLogin(c.roleId, secret)
      case Some(token) => if token == "" then None else Some(token)
      case None => None
  }

  /** The mount a vault request reaches with a login secret. */
  function VaultBy(w: World, c: VaultConfig, secret: string): Option<Site> {
    if c.address == "" then None
    else match VaultToken(w, c, secret)
      case None => None
      case Some(token) =>
        if w.vaultAccepts(c.address, token) then Some(VaultSite(c.address, Or(c.mount, DEFAULT_VAULT_MOUNT)))
        else None
  }

  /** ... when configuration and the stored secret allow one. */
  function VaultLogin(w: World, p: Plain): Option<Site> {
    match p.cfg.vault
    case None => None
    case Some(c) => (match DbSecret(p, VaultLoginRef(c)) case None => None case Some(secret) => VaultBy(w, c, secret))
  }

  const NO_ASM_CONFIG := AsmConfig("", "", "", "", "")

  function AsmSettings(cfg: Settings): AsmConfig {
    match cfg.asm case Some(c) => c case None => NO_ASM_CONFIG
  }

  function AsmLoginRef(c: AsmConfig): string {
    Or(c.secretKeyRef, DEFAULT_ASM_SECRET_KEY_REF)
  }

  /** A client built from the settings as they stand; only "keys" authentication needs a stored secret. */
  function BuiltClient(p: Plain): Option<Client> {
    var c := AsmSettings(p.cfg);
    if c.auth != "keys" then Some(Client(c, ""))
    else match DbSecret(p, AsmLoginRef(c))
      case None => None
      case Some(key) => Some(Client(c, key))
  }

  /** asmClient: the cached client, else a new one. */
  function AsmClient(p: Plain): Option<Client> {
    if p.client.Some? then p.client else BuiltClient(p)
  }

  /** The account a client reaches. */
  function AsmBy(w: World, client: Client): Option<Site> {
    match w.asmAccount(client) case Some(account) => Some(AsmSite(account)) case None => None
  }

  function AsmLogin(w: World, p: Plain): Option<Site> {
    match AsmClient(p) case None => None case Some(client) => AsmBy(w, client)
  }

  function Login(w: World, p: Plain, b: Backend): Option<Site> {
    match b
    case Vault => VaultLogin(w, p)
    case ASM => AsmLogin(w, p)
    case DB => None
  }

  /** What is left behind once a backend was used: AWS's client stays cached. */
  function Used(p: Plain, b: Backend): Plain {
    if b == ASM then p.(client := AsmClient(p)) else p
  }

  function DefaultField(b: Backend): string {
    if b == Vault then "value" else ""
  }

  /** The name of the object a path or id names. */
  function ObjectName(w: World, b: Backend, id: string): string {
    w.named(b, if b == Vault then TrimSlash(id) else id)
  }

  /** The name of the object a stored pointer names. */
  function NameOf(w: World, b: Backend, backendRef: string): string {
    ObjectName(w, b, SplitRef(backendRef, "").0)
  }

  function Extract(w: World, o: Object, field: string): Option<string> {
    match o
    case Fields(m) => if field in m then Some(m[field]) else None
    case Text(t) => if field == "" then Some(t) else w.pluck(t, field)
  }

  /** What a pointer into `b` reads where a login leads. */
  function ReadAt(w: World, ext: External, login: Option<Site>, b: Backend, backendRef: string): Option<string> {
    match login
    case None => None
    case Some(site) =>
      var at := Place(site, NameOf(w, b, backendRef));
      if at in ext then Extract(w, ext[at], SplitRef(backendRef, DefaultField(b)).1) else None
  }

  function ReadExt(w: World, p: Plain, b: Backend, backendRef: string): Option<string> {
    ReadAt(w, p.ext, Login(w, p, b), b, backendRef)
  }

  function Outcome(v: Option<string>): Result {
    match v case Some(x) => Value(x) case None => Failed
  }

  function PlainResolve(w: World, p: Plain, ref: string): Result {
    if ref !in p.rows then NotFound
    else match p.rows[ref]
      case Held(v) => Outcome(v)
      case Points(b, r) => Outcome(ReadExt(w, p, b, r))
  }

  /** What a read at one moment answers in a state. */
  function Answer(w: World, s: State, ref: string): Result {
    if ref !in s.rows then NotFound
    else match s.rows[ref]
      case DbRow(box) => Outcome(OpenDB(w, ref, box))
      case ExtRow(b, r) => Outcome(ReadExt(w, View(w, s), b, r))
  }

  /** Callers cannot tell two states apart whose plain views agree. */
  lemma ResolveSeesPlain(w: World, s: State, ref: string)
    ensures Answer(w, s, ref) == PlainResolve(w, View(w, s), ref)
  {
  }

  /** Caching the client that would be built anyway changes no answer at that moment. */
  lemma UsingIsUnseen(w: World, p: Plain, b: Backend)
    ensures forall c :: Login(w, Used(p, b), c) == Login(w, p, c)
    ensures forall ref :: PlainResolve(w, Used(p, b), ref) == PlainResolve(w, p, ref)
  {
    var q := Used(p, b);
    assert VaultLogin(w, q) == VaultLogin(w, p);
    assert AsmLogin(w, q) == AsmLogin(w, p);
    forall c ensures Login(w, q, c) == Login(w, p, c) {}
  }

  // ---------------------------------------------------------------- writing

  /** The object a write-through leaves. */
  function Stored(b: Backend, value: string): Object {
    if b == Vault then Fields(map["value" := value]) else Text(value)
  }

  function WriteExt(w: World, p: Plain, b: Backend, path: string, value: string): Option<External> {
    match Login(w, p, b)
    case None => None
    case Some(site) => Some(p.ext[Place(site, ObjectName(w, b, path)) := Stored(b, value)])
  }

  function DeleteExt(w: World, p: Plain, b: Backend, path: string): Option<External> {
    match Login(w, p, b)
    case None => None
    case Some(site) => Some(p.ext - {Place(site, ObjectName(w, b, path))})
  }

  /** The refs vault logs in with, then those AWS does. */
  function VaultRefs(cfg: Settings): set<string> {
    match cfg.vault
    case None => {}
    case Some(c) =>
      {Or(c.tokenRef, DEFAULT_VAULT_TOKEN_REF)}
      + (if c.auth == "approle" then {Or(c.secretIdRef, DEFAULT_VAULT_SECRET_ID_REF)} else {})
  }

  function AsmRefs(cfg: Settings): set<string> {
    match cfg.asm
    case None => {}
    case Some(c) => if c.auth == "keys" then {AsmLoginRef(c)} else {}
  }

  function BootstrapRefs(cfg: Settings): set<string> {
    VaultRefs(cfg) + AsmRefs(cfg)
  }

  /** One SQL statement, or one use of an external system. */
  datatype Effect =
    | Nothing
    | PutDb(ref: string, value: string)
    | PutRef(ref: string, backend: Backend, backendRef: string)
    | RemoveRow(ref: string)
    | Reach(backend: Backend, ext: External)

  function Apply(w: World, s: State, e: Effect, nonce: Bytes): State {
    match e
    case Nothing => s
    case PutDb(ref, v) => s.(rows := s.rows[ref := DbRow(Box(w.aead.seal(nonce, ref, v), nonce))])
    case PutRef(ref, b, r) => s.(rows := s.rows[ref := ExtRow(b, r)])
    case RemoveRow(ref) => s.(rows := s.rows - {ref})
    case Reach(b, x) => s.(ext := x, client := Used(View(w, s), b).client)
  }

  function ApplyPlain(p: Plain, e: Effect): Plain {
    match e
    case Nothing => p
    case PutDb(ref, v) => p.(rows := p.rows[ref := Held(Some(v))])
    case PutRef(ref, b, r) => p.(rows := p.rows[ref := Points(b, r)])
    case RemoveRow(ref) => p.(rows := p.rows - {ref})
    case Reach(b, x) => Used(p, b).(ext := x)
  }

  lemma ApplyViews(w: World, s: State, e: Effect, nonce: Bytes)
    requires Lawful(w)
    ensures View(w, Apply(w, s, e, nonce)) == ApplyPlain(View(w, s), e)
  {
    if e.PutDb? { assert w.aead.open(e.ref, Box(w.aead.seal(nonce, e.ref, e.value), nonce)) == Some(e.value); }
  }

  // ---------------------------------------------------------------- operations as steps

  /** A `Set`, `Migrate` or `Delete` in progress, by the local variables it still needs. */
  datatype Op =
    | SetOp(ref: string, value: string)
    | SetWrite(ref: string, value: string, backend: Backend)
    | SetPoint(ref: string, backend: Backend)
    | MigrateOp(ref: string, target: Backend)
    | MigrateCheck(ref: string, target: Backend, refused: set<string>)
    | MigrateRow(ref: string, target: Backend)
    | MigrateRead(ref: string, target: Backend, source: Backend)
    | MigrateFetch(ref: string, target: Backend, source: Backend, at: Backend, backendRef: string)
    | MigrateWrite(ref: string, target: Backend, source: Backend, value: string)
    | MigratePoint(ref: string, target: Backend, source: Backend)
    | MigrateWipe(ref: string, source: Backend)
    | DeleteOp(ref: string)
    | DeleteCheck(ref: string, refused: set<string>)
    | DeleteLook(ref: string)
    | DeleteWipe(ref: string, backend: Backend)
    | DeleteLast(ref: string)
    | Finished(ok: bool)

  function RowBackend(r: PlainRow): Backend {
    match r case Held(_) => DB case Points(b, _) => b
  }

  const STOPPED := (Nothing, Finished(false))

  /** A write-through of `value`, leading to `next`. */
  function Through(w: World, p: Plain, b: Backend, ref: string, value: string, next: Op): (Effect, Op) {
    match WriteExt(w, p, b, ExternalRef(ref), value)
    case Some(x) => (Reach(b, x), next)
    case None => (Reach(b, p.ext), Finished(false))
  }

  /** A best-effort delete of `ref`'s own object. */
  function Away(w: World, p: Plain, b: Backend, ref: string): Effect {
    if b == DB then Nothing
    else match DeleteExt(w, p, b, ExternalRef(ref))
      case Some(x) => Reach(b, x)
      case None => Reach(b, p.ext)
  }

  function SetStep(w: World, p: Plain, op: Op, up: bool): (Effect, Op)
    requires op.SetOp? || op.SetWrite? || op.SetPoint?
  {
    if !up then STOPPED
    else match op
      case SetOp(ref, v) => (Nothing, SetWrite(ref, v, p.cfg.default))
      case SetWrite(ref, v, b) =>
        if b == DB then (PutDb(ref, v), Finished(true))
        else if !ValidExternalRefName(ref) then STOPPED
        else Through(w, p, b, ref, v, SetPoint(ref, b))
      case SetPoint(ref, b) => (PutRef(ref, b, Pointer(b, ref)), Finished(true))
  }

  function MigrateAct(w: World, p: Plain, op: Op, up: bool): (Effect, Op)
    requires op.MigrateOp? || op.MigrateCheck? || op.MigrateRow? || op.MigrateRead? || op.MigrateFetch?
             || op.MigrateWrite? || op.MigratePoint? || op.MigrateWipe?
  {
    if op.MigrateWipe? then (if up then Away(w, p, op.source, op.ref) else Nothing, Finished(true))
    else if !up then STOPPED
    else match op
      case MigrateOp(ref, target) =>
        (Nothing, if target == DB then MigrateRow(ref, target) else MigrateCheck(ref, target, VaultRefs(p.cfg)))
      case MigrateCheck(ref, target, refused) =>
        if ref in refused + AsmRefs(p.cfg) then STOPPED else (Nothing, MigrateRow(ref, target))
      case MigrateRow(ref, target) =>
        if ref !in p.rows then STOPPED
        else if RowBackend(p.rows[ref]) == target then (Nothing, Finished(true))
        else (Nothing, MigrateRead(ref, target, RowBackend(p.rows[ref])))
      case MigrateRead(ref, target, source) =>
        if ref !in p.rows then STOPPED
        else (match p.rows[ref]
              case Held(Some(v)) => (Nothing, MigrateWrite(ref, target, source, v))
              case Held(None) => STOPPED
              case Points(b, r) => (Nothing, MigrateFetch(ref, target, source, b, r)))
      case MigrateFetch(ref, target, source, b, r) =>
        (Reach(b, p.ext), match ReadExt(w, p, b, r)
                          case Some(v) => MigrateWrite(ref, target, source, v)
                          case None => Finished(false))
      case MigrateWrite(ref, target, source, v) =>
        if target == DB then (PutDb(ref, v), MigrateWipe(ref, source))
        else if !ValidExternalRefName(ref) then STOPPED
        else Through(w, p, target, ref, v, MigratePoint(ref, target, source))
      case MigratePoint(ref, target, source) =>
        (PutRef(ref, target, Pointer(target, ref)), MigrateWipe(ref, source))
  }

  function DeleteStep(w: World, p: Plain, op: Op, up: bool): (Effect, Op)
    requires op.DeleteOp? || op.DeleteCheck? || op.DeleteLook? || op.DeleteWipe? || op.DeleteLast?
  {
    if op.DeleteWipe? then (if up then Away(w, p, op.backend, op.ref) else Nothing, DeleteLast(op.ref))
    else if !up then STOPPED
    else match op
      case DeleteOp(ref) => (Nothing, DeleteCheck(ref, VaultRefs(p.cfg)))
      case DeleteCheck(ref, refused) =>
        if ref in refused + AsmRefs(p.cfg) then STOPPED else (Nothing, DeleteLook(ref))
      case DeleteLook(ref) =>
        (Nothing, if OwnsCopy(p, ref) then DeleteWipe(ref, p.rows[ref].backend) else DeleteLast(ref))
      case DeleteLast(ref) => (RemoveRow(ref), Finished(true))
  }

  /** The row points where this store itself would have put the secret. */
  predicate OwnsCopy(p: Plain, ref: string) {
    ref in p.rows && p.rows[ref].Points? && SplitRef(p.rows[ref].backendRef, "").0 == ExternalRef(ref)
  }

  /** One step of an operation: its effect and what is left to do.  `up` is whether the call it makes
      works; a failed call ends the operation, except for the best-effort wipes. */
  function OpStep(w: World, p: Plain, op: Op, up: bool): (Effect, Op) {
    if op.Finished? then (Nothing, op)
    else if op.SetOp? || op.SetWrite? || op.SetPoint? then SetStep(w, p, op, up)
    else if op.DeleteOp? || op.DeleteCheck? || op.DeleteLook? || op.DeleteWipe? || op.DeleteLast? then
      DeleteStep(w, p, op, up)
    else MigrateAct(w, p, op, up)
  }

  // ---------------------------------------------------------------- interleaving

  /** A reader or the startup sweep that found a legacy row and is about to rewrite it. */
  datatype Pending = Pending(ref: string, seen: Box, value: string)

  /** A Resolve: it has read a pointer row, or has its answer. */
  datatype Reader = Looked(ref: string, backend: Backend, backendRef: string) | Answered(ref: string, result: Result)

  /** Many operations, readers and sweeps at work on one store. */
  datatype System = System(store: State, ops: map<nat, Op>, readers: map<nat, Reader>, reseals: map<nat, Pending>)

  datatype Event =
    | Begin(k: nat, op: Op)
    | Act(k: nat, up: bool, nonce: Bytes)
    | Look(k: nat, ref: string)    // Resolve reads the row
    | Fetch(k: nat, up: bool)      // ... logs in and reads the external object
    | ReadRow(k: nat, ref: string)
    | Reseal(k: nat, nonce: Bytes)
    | DropReseal(k: nat)
    | Configure(cfg: Settings)     // connection settings or the default backend change
    | Forget                       // the cached AWS client is dropped: after new AWS settings, or a restart

  predicate Initial(op: Op) {
    op.SetOp? || op.MigrateOp? || op.DeleteOp?
  }

  /** UPDATE ... WHERE ref_name = ref AND backend = 'db' AND ciphertext, nonce are still the old ones. */
  function CompareAndSwap(s: State, ref: string, seen: Box, resealed: Box): State {
    if ref in s.rows && s.rows[ref] == DbRow(seen) then s.(rows := s.rows[ref := DbRow(resealed)]) else s
  }

  function Seal(w: World, ref: string, value: string, nonce: Bytes): Box {
    Box(w.aead.seal(nonce, ref, value), nonce)
  }

  /** The first half of a Resolve; a db row is opened on the spot. */
  function Looking(w: World, s: State, ref: string): Reader {
    if ref in s.rows && s.rows[ref].ExtRow? then Looked(ref, s.rows[ref].backend, s.rows[ref].backendRef)
    else Answered(ref, Answer(w, s, ref))
  }

  function Next(w: World, s: System, e: Event): Option<System> {
    match e
    case Begin(k, op) =>
      if k in s.ops || !Initial(op) then None else Some(s.(ops := s.ops[k := op]))
    case Act(k, up, nonce) =>
      if k !in s.ops then None
      else
        var (effect, op) := OpStep(w, View(w, s.store), s.ops[k], up);
        Some(s.(store := Apply(w, s.store, effect, nonce), ops := s.ops[k := op]))
    case Look(k, ref) =>
      if k in s.readers then None else Some(s.(readers := s.readers[k := Looking(w, s.store, ref)]))
    case Fetch(k, up) =>
      if k !in s.readers || s.readers[k].Answered? then None
      else if !up then Some(s.(readers := s.readers[k := Answered(s.readers[k].ref, Failed)]))
      else
        var r := s.readers[k];
        Some(s.(store := Apply(w, s.store, Reach(r.backend, s.store.ext), ""),
                readers := s.readers[k := Answered(r.ref,
                                                   Outcome(ReadExt(w, View(w, s.store), r.backend, r.backendRef)))]))
    case ReadRow(k, ref) =>
      if k in s.reseals || ref !in s.store.rows || !s.store.rows[ref].DbRow? then None
      else
        var box := s.store.rows[ref].box;
        (match (w.aead.open(ref, box), w.aead.open("", box))
         case (None, Some(v)) => Some(s.(reseals := s.reseals[k := Pending(ref, box, v)]))
         case _ => Some(s))
    case Reseal(k, nonce) =>
      if k !in s.reseals then None
      else
        var r := s.reseals[k];
        Some(s.(store := CompareAndSwap(s.store, r.ref, r.seen, Seal(w, r.ref, r.value, nonce)),
                reseals := s.reseals - {k}))
    case DropReseal(k) =>
      if k !in s.reseals then None else Some(s.(reseals := s.reseals - {k}))
    case Configure(cfg) => Some(s.(store := s.store.(cfg := cfg)))
    case Forget => Some(s.(store := s.store.(client := None)))
  }

  function Run(w: World, s: System, es: seq<Event>): Option<System>
    decreases |es|
  {
    if es == [] then Some(s)
    else match Next(w, s, es[0])
      case None => None
      case Some(t) => Run(w, t, es[1..])
  }

  /** The same system with no formats and no reseals: plain rows, the operations and the readers. */
  datatype PlainSystem = PlainSystem(p: Plain, ops: map<nat, Op>, readers: map<nat, Reader>)

  function PlainLooking(w: World, p: Plain, ref: string): Reader {
    if ref in p.rows && p.rows[ref].Points? then Looked(ref, p.rows[ref].backend, p.rows[ref].backendRef)
    else Answered(ref, PlainResolve(w, p, ref))
  }

  function PlainNext(w: World, s: PlainSystem, e: Event): Option<PlainSystem> {
    match e
    case Begin(k, op) =>
      if k in s.ops || !Initial(op) then None else Some(s.(ops := s.ops[k := op]))
    case Act(k, up, _) =>
      if k !in s.ops then None
      else
        var (effect, op) := OpStep(w, s.p, s.ops[k], up);
        Some(s.(p := ApplyPlain(s.p, effect), ops := s.ops[k := op]))
    case Look(k, ref) =>
      if k in s.readers then None else Some(s.(readers := s.readers[k := PlainLooking(w, s.p, ref)]))
    case Fetch(k, up) =>
      if k !in s.readers || s.readers[k].Answered? then None
      else if !up then Some(s.(readers := s.readers[k := Answered(s.readers[k].ref, Failed)]))
      else
        var r := s.readers[k];
        Some(s.(p := Used(s.p, r.backend),
                readers := s.readers[k := Answered(r.ref, Outcome(ReadExt(w, s.p, r.backend, r.backendRef)))]))
    case Configure(cfg) => Some(s.(p := s.p.(cfg := cfg)))
    case Forget => Some(s.(p := s.p.(client := None)))
    case _ => None
  }

  function PlainRun(w: World, s: PlainSystem, es: seq<Event>): Option<PlainSystem>
    decreases |es|
  {
    if es == [] then Some(s)
    else match PlainNext(w, s, es[0])
      case None => None
      case Some(t) => PlainRun(w, t, es[1..])
  }

  function PlainOf(w: World, s: System): PlainSystem {
    PlainSystem(View(w, s.store), s.ops, s.readers)
  }

  /** Everything but the business of resealing. */
  predicate Plainly(e: Event) {
    !e.ReadRow? && !e.Reseal? && !e.DropReseal?
  }

  function Visible(es: seq<Event>): seq<Event>
    decreases |es|
  {
    if es == [] then []
    else if Plainly(es[0]) then [es[0]] + Visible(es[1..])
    else Visible(es[1..])
  }

  /** Every reseal in flight carries the value its old bytes open to. */
  ghost predicate ResealsOk(w: World, s: System) {
    forall k | k in s.reseals :: OpenDB(w, s.reseals[k].ref, s.reseals[k].seen) == Some(s.reseals[k].value)
  }

  /** A compare-and-swap reseal, whenever it lands, leaves every ref's answer as it was. */
  lemma ResealIsInvisible(w: World, s: State, r: Pending, nonce: Bytes)
    requires Lawful(w) && OpenDB(w, r.ref, r.seen) == Some(r.value)
    ensures var t := CompareAndSwap(s, r.ref, r.seen, Seal(w, r.ref, r.value, nonce));
            View(w, t) == View(w, s) && forall ref :: Answer(w, t, ref) == Answer(w, s, ref)
  {
    var resealed := Seal(w, r.ref, r.value, nonce);
    var t := CompareAndSwap(s, r.ref, r.seen, resealed);
    assert OpenDB(w, r.ref, resealed) == Some(r.value);
    assert View(w, t).rows == View(w, s).rows;
    forall ref ensures Answer(w, t, ref) == Answer(w, s, ref) {
      ResolveSeesPlain(w, s, ref);
      ResolveSeesPlain(w, t, ref);
    }
  }

  lemma NextRefines(w: World, s: System, e: Event)
    requires Lawful(w) && ResealsOk(w, s) && Next(w, s, e).Some?
    ensures var t := Next(w, s, e).value;
            && ResealsOk(w, t)
            && (if Plainly(e) then PlainNext(w, PlainOf(w, s), e) == Some(PlainOf(w, t))
                else PlainOf(w, t) == PlainOf(w, s))
  {
    match e
    case Act(k, up, nonce) => ApplyViews(w, s.store, OpStep(w, View(w, s.store), s.ops[k], up).0, nonce);
    case Look(k, ref) => ResolveSeesPlain(w, s.store, ref);
    case Fetch(k, up) => FetchRefines(w, s, k, up);
    case Reseal(k, nonce) => ResealIsInvisible(w, s.store, s.reseals[k], nonce);
    case _ =>
  }

  lemma FetchRefines(w: World, s: System, k: nat, up: bool)
    requires Lawful(w) && Next(w, s, Fetch(k, up)).Some?
    ensures PlainNext(w, PlainOf(w, s), Fetch(k, up)) == Some(PlainOf(w, Next(w, s, Fetch(k, up)).value))
  {
    if up { ApplyViews(w, s.store, Reach(s.readers[k].backend, s.store.ext), ""); }
  }

  /** Any interleaving of readers, sweeps, Sets, Migrates, Deletes, configuration changes and restarts
      gives every reader and every operation exactly what the same run on plain values gives them, with
      no reseal in it: reseals never change an answer and never undo a write. */
  lemma {:induction false} RunRefines(w: World, s: System, es: seq<Event>)
    requires Lawful(w) && ResealsOk(w, s) && Run(w, s, es).Some?
    ensures ResealsOk(w, Run(w, s, es).value)
    ensures PlainRun(w, PlainOf(w, s), Visible(es)) == Some(PlainOf(w, Run(w, s, es).value))
    decreases |es|
  {
    if es != [] {
      NextRefines(w, s, es[0]);
      RunRefines(w, Next(w, s, es[0]).value, es[1..]);
      if Plainly(es[0]) {
        assert ([es[0]] + Visible(es[1..]))[1..] == Visible(es[1..]);
      }
    }
  }

  /** One operation run alone for |ups| steps, then stopped. */
  function OpRun(w: World, p: Plain, op: Op, ups: seq<bool>): (Plain, Op)
    decreases |ups|
  {
    if ups == [] then (p, op)
    else
      var (effect, next) := OpStep(w, p, op, ups[0]);
      OpRun(w, ApplyPlain(p, effect), next, ups[1..])
  }

  lemma {:induction false} FinishedStays(w: World, p: Plain, ok: bool, ups: seq<bool>)
    ensures OpRun(w, p, Finished(ok), ups) == (p, Finished(ok))
    decreases |ups|
  {
    if ups != [] { FinishedStays(w, p, ok, ups[1..]); }
  }

  /** One step of an operation's run. */
  lemma {:induction false} StepOf(w: World, p: Plain, op: Op, ups: seq<bool>, q: Plain, next: Op)
    requires ups != [] && ApplyPlain(p, OpStep(w, p, op, ups[0]).0) == q && OpStep(w, p, op, ups[0]).1 == next
    ensures OpRun(w, p, op, ups) == OpRun(w, q, next, ups[1..])
    ensures next.Finished? ==> OpRun(w, p, op, ups) == (q, next)
  {
    if next.Finished? { FinishedStays(w, q, next.ok, ups[1..]); }
  }
}
