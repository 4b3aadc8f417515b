/** The agent registry (internal/brain/agents/agents.go): a table with one default, and a cache of it
    that every change invalidates. */
module Agents {
  import opened Options
  import opened Strings

  const MAX_NAME := 64
  const HARNESS := "harness"

  /** `columns` holds the settings the registry only carries: description, route, skills, harness, … */
  datatype Agent = Agent(id: string, name: string, isDefault: bool, enabled: bool, memory: bool, columns: map<string,
                         string>)

  /** The zero-value agent that keeps chat serving. */
  const ZERO := Agent("", "", false, false, true, map[])

  type Table = map<string, Agent>

  /** The database's case folding of names, and the known coding executors. */
  datatype World = World(fold: string -> string, harnesses: set<string>)

  datatype Error = Invalid | NotFound | InUse | NameConflict

  datatype Op =
    | Create(id: string, agent: Agent)
    | Patch(id: string, name: Option<string>, enabled: Option<bool>, memory: Option<bool>, columns: map<string, string>)
    | SetDefault(id: string)
    | Delete(id: string, referenced: bool)   // by an automation or a live mission

  datatype Outcome = Done(table: Table) | Refused(error: Error)

  predicate Control(c: char) {
    c as int < 0x20 || 0x7F <= c as int < 0xA0
  }

  /** validateName. */
  function ValidName(name: string): Option<string> {
    var n := TrimSpace(name);
    if n == "" || |n| > MAX_NAME || (exists k | 0 <= k < |n| :: Control(n[k])) then None else Some(n)
  }

  predicate ValidHarness(w: World, columns: map<string, string>) {
    HARNESS in columns ==> columns[HARNESS] == "" || columns[HARNESS] in w.harnesses
  }

  /** Another row holds the name, case folded. */
  predicate NameTaken(w: World, t: Table, id: string, name: string) {
    exists i | i in t && i != id :: w.fold(t[i].name) == w.fold(name)
  }

  function Undefaulted(t: Table): Table {
    map i | i in t :: t[i].(isDefault := false)
  }

  function Patched(a: Agent, name: Option<string>, p: Op): Agent
    requires p.Patch?
  {
    a.(name := if name.Some? then name.value else a.name,
       enabled := if p.enabled.Some? then p.enabled.value else a.enabled,
       memory := if p.memory.Some? then p.memory.value else a.memory,
       columns := a.columns + p.columns)
  }

  function ApplyPatch(w: World, t: Table, p: Op): Outcome
    requires p.Patch?
  {
    var name := if p.name.Some? then ValidName(p.name.value) else None;
    if (p.name.Some? && name.None?) || !ValidHarness(w, p.columns) then Refused(Invalid)
    else if p.id !in t then Refused(NotFound)
    else if p.enabled == Some(false) && t[p.id].isDefault then Refused(Invalid)
    else
      var after := Patched(t[p.id], name, p);
      if NameTaken(w, t, p.id, after.name) then Refused(NameConflict) else Done(t[p.id := after])
  }

  /** A change as one transaction. */
  function Apply(w: World, t: Table, op: Op): Outcome {
    match op
    case Create(id, a) =>
      (match ValidName(a.name)
       case None => Refused(Invalid)
       case Some(n) =>
         if !ValidHarness(w, a.columns) then Refused(Invalid)
         else if id in t || NameTaken(w, t, id, n) then Refused(NameConflict)
         else Done(t[id := a.(id := id, name := n, isDefault := false)]))
    case Patch(_, _, _, _, _) => ApplyPatch(w, t, op)
    case SetDefault(id) =>
      if id !in t then Refused(NotFound)
      else if !t[id].enabled then Refused(Invalid)
      else Done(Undefaulted(t)[id := t[id].(isDefault := true)])
    case Delete(id, referenced) =>
      if id !in t then Refused(NotFound)
      else if t[id].isDefault || referenced then Refused(InUse)
      else Done(t - {id})
  }

  function Applied(w: World, t: Table, op: Op): Table {
    match Apply(w, t, op) case Done(u) => u case Refused(_) => t
  }

  function History(w: World, t: Table, ops: seq<Op>): Table {
    if ops == [] then t else Applied(w, History(w, t, ops[..|ops|-1]), ops[|ops|-1])
  }

  // ---------------------------------------------------------------- what a change stores

  /** A name is stored without the blanks around it, and only if 1 to 64 characters are left, none of them a
      control character. */
  lemma NameStored(name: string, n: string)
    ensures ValidName(name) == Some(n) <==>
            && 0 < |n| <= 64 && (forall k | 0 <= k < |n| :: !(n[k] as int < 32 || 127 <= n[k] as int < 160))
            && exists a, b :: Trimmed(name, Blank, a, n, b)
  {
    var a, b := TrimParts(name, Blank);
    forall a', b' | Trimmed(name, Blank, a', n, b') ensures n == TrimSpace(name) {
      TrimmedIsTrim(name, Blank, a', n, b');
    }
  }

  /** What a patch names is what the row then holds; everything else stays. */
  lemma PatchStores(w: World, t: Table, p: Op, u: Table)
    requires p.Patch? && Apply(w, t, p) == Done(u)
    ensures p.id in t && p.id in u
    ensures var a, b := t[p.id], u[p.id];
            && b.id == a.id && b.isDefault == a.isDefault
            && (if p.name.Some? then ValidName(p.name.value) == Some(b.name) else b.name == a.name)
            && (p.enabled == Some(b.enabled) || (p.enabled.None? && b.enabled == a.enabled))
            && (p.memory == Some(b.memory) || (p.memory.None? && b.memory == a.memory))
            && (forall c :: c in b.columns <==> c in a.columns || c in p.columns)
            && (forall c | c in b.columns ::
                  b.columns[c] == if c in p.columns then p.columns[c] else a.columns[c])
  {
  }

  /** A created agent holds what was asked for under a new id, and never the flag. */
  lemma CreateStores(w: World, t: Table, id: string, a: Agent, u: Table)
    requires Apply(w, t, Create(id, a)) == Done(u)
    ensures id !in t && id in u && ValidName(a.name) == Some(u[id].name)
    ensures u[id].columns == a.columns && u[id].enabled == a.enabled && u[id].memory == a.memory
    ensures u[id].id == id && !u[id].isDefault
  {
  }

  predicate KnownHarness(w: World, columns: map<string, string>) {
    "harness" in columns ==> columns["harness"] in w.harnesses + {""}
  }

  ghost predicate NameFree(w: World, t: Table, id: string, name: string) {
    forall i | i in t && w.fold(t[i].name) == w.fold(name) :: i == id
  }

  /** Exactly the changes that go through: names valid and free, a known executor, the agent there, the default
      neither disabled nor deleted, only an enabled agent made the default, none deleted while in use. */
  lemma AppliesExactly(w: World, t: Table, op: Op)
    ensures Apply(w, t, op).Done? <==>
            match op
            case Create(id, a) =>
              && id !in t && KnownHarness(w, a.columns)
              && exists n :: ValidName(a.name) == Some(n) && NameFree(w, t, id, n)
            case Patch(id, name, enabled, _, columns) =>
              && id in t && KnownHarness(w, columns) && !(enabled == Some(false) && t[id].isDefault)
              && (if name.None? then NameFree(w, t, id, t[id].name)
                  else exists n :: ValidName(name.value) == Some(n) && NameFree(w, t, id, n))
            case SetDefault(id) => id in t && t[id].enabled
            case Delete(id, referenced) => id in t && !t[id].isDefault && !referenced
  {
    assert forall id, name :: NameTaken(w, t, id, name) <==> !NameFree(w, t, id, name);
  }

  // ---------------------------------------------------------------- one default

  ghost predicate Sound(w: World, t: Table) {
    && (forall i | i in t :: t[i].id == i && t[i].name != "")
    && (forall i, j | i in t && j in t && w.fold(t[i].name) == w.fold(t[j].name) :: i == j)
    && (forall i, j | i in t && j in t && t[i].isDefault && t[j].isDefault :: i == j)
    && (forall i | i in t && t[i].isDefault :: t[i].enabled)
  }

  predicate HasDefault(t: Table) {
    exists i | i in t :: t[i].isDefault
  }

  lemma AppliedKeepsSound(w: World, t: Table, op: Op)
    requires Sound(w, t)
    ensures Sound(w, Applied(w, t, op))
  {
    match op
    case Create(id, a) => if Apply(w, t, op).Done? { PutKeepsSound(w, t, id, Applied(w, t, op)[id]); }
    case Patch(id, _, _, _, _) => if Apply(w, t, op).Done? { PutKeepsSound(w, t, id, Applied(w, t, op)[id]); }
    case SetDefault(_) =>
    case Delete(_, _) =>
  }

  /** A row whose name is free and which does not take the flag. */
  lemma PutKeepsSound(w: World, t: Table, id: string, a: Agent)
    requires Sound(w, t) && a.id == id && a.name != "" && !NameTaken(w, t, id, a.name)
    requires a.isDefault ==> a.enabled && id in t && t[id].isDefault
    ensures Sound(w, t[id := a])
  {
  }

  lemma AppliedKeepsDefault(w: World, t: Table, op: Op)
    requires HasDefault(t)
    ensures HasDefault(Applied(w, t, op))
  {
    var i :| i in t && t[i].isDefault;
    var u := Applied(w, t, op);
    match op
    case SetDefault(id) => if u != t { assert u[id].isDefault; }
    case _ => assert i in u && u[i].isDefault;
  }

  /** Over every sequence of changes: names stay apart, at most one agent is the default, it is enabled,
      and once there is one there always is. */
  lemma {:induction false} HistoryKeepsOneDefault(w: World, t: Table, ops: seq<Op>)
    requires Sound(w, t)
    ensures Sound(w, History(w, t, ops))
    ensures HasDefault(t) ==> HasDefault(History(w, t, ops))
  {
    if ops != [] {
      var before := History(w, t, ops[..|ops|-1]);
      HistoryKeepsOneDefault(w, t, ops[..|ops|-1]);
      AppliedKeepsSound(w, before, ops[|ops|-1]);
      if HasDefault(t) { AppliedKeepsDefault(w, before, ops[|ops|-1]); }
    }
  }

  /** A change reaches its own agent alone; only SetDefault also takes the flag from the others, and it
      leaves it with exactly the one it names. */
  lemma OnlyItsOwnAgent(w: World, t: Table, op: Op)
    requires Sound(w, t)
    ensures var u := Applied(w, t, op);
            && (forall i | i != op.id :: i in u <==> i in t)
            && (forall i | i in t && i != op.id && !op.SetDefault? :: u[i] == t[i])
            && (op.SetDefault? && u != t ==> forall i | i in u :: u[i] == t[i].(isDefault := i == op.id))
            && (op.Delete? && Apply(w, t, op).Done? ==> op.id !in u && !t[op.id].isDefault && !op.referenced)
            && (op.Patch? && Apply(w, t, op).Done? ==> u[op.id].isDefault == t[op.id].isDefault)
  {
    if op.SetDefault? { FlagMoves(w, t, op); }
  }

  lemma FlagMoves(w: World, t: Table, op: Op)
    requires Sound(w, t) && op.SetDefault?
    ensures var u := Applied(w, t, op);
            u.Keys == t.Keys && (u != t ==> forall i | i in u :: u[i] == t[i].(isDefault := i == op.id))
  {
  }

  // ---------------------------------------------------------------- what is read

  /** The enabled agents by name, and the default's name. */
  datatype Snapshot = Snapshot(byName: map<string, Agent>, def: string)

  const DEGRADED := Snapshot(map["" := ZERO], "")

  /** A snapshot that is right for the table. */
  ghost predicate Reflects(t: Table, s: Snapshot) {
    && s.def in s.byName
    && (forall i | i in t && t[i].enabled :: t[i].name in s.byName && s.byName[t[i].name] == t[i])
    && (forall n | n in s.byName ::
          var a := s.byName[n];
          (a.id in t && t[a.id] == a && a.enabled && a.name == n) || (n == s.def == "" && a == ZERO))
    && (s.def == "" ==> !HasDefault(t))
    && (s.def != "" ==> s.byName[s.def].isDefault)
  }

  function Resolve(s: Snapshot, name: string): (Agent, bool)
    requires s.def in s.byName
  {
    if name == "" then (s.byName[s.def], true)
    else if name in s.byName then (s.byName[name], true)
    else (s.byName[s.def], false)
  }

  /** The agent a new session gets. */
  ghost predicate IsDefaultAgent(t: Table, a: Agent) {
    if HasDefault(t) then a.id in t && t[a.id] == a && a.isDefault else a == ZERO
  }

  /** Resolve from a right snapshot: an enabled agent by its name; else the default, and whether that
      was what was asked for. */
  lemma ResolveIsRight(w: World, t: Table, s: Snapshot, name: string)
    requires Sound(w, t) && Reflects(t, s)
    ensures IsDefaultAgent(t, s.byName[s.def])
    ensures forall i | i in t && t[i].enabled && t[i].name == name :: Resolve(s, name) == (t[i], true)
    ensures (forall i | i in t && t[i].enabled :: t[i].name != name) ==>
              Resolve(s, name) == (s.byName[s.def], name == "")
  {
    if HasDefault(t) {
      var i :| i in t && t[i].isDefault;
      assert s.def != "";
    }
  }

  /** An answer to ResolveByID. */
  ghost predicate AnswersId(s: Snapshot, id: string, r: (Agent, bool))
    requires s.def in s.byName
  {
    if id == "" then r == (s.byName[s.def], true)
    else if exists n | n in s.byName :: s.byName[n].id == id then r.1 && r.0.id == id && r.0 in s.byName.Values
    else r == (s.byName[s.def], false)
  }

  lemma ResolveByIdIsRight(w: World, t: Table, s: Snapshot, id: string, r: (Agent, bool))
    requires Sound(w, t) && Reflects(t, s) && AnswersId(s, id, r)
    ensures id in t && t[id].enabled && id != "" ==> r == (t[id], true)
    ensures !(id in t && t[id].enabled) && id != "" ==> r == (s.byName[s.def], false)
  {
    if id in t && t[id].enabled { assert s.byName[t[id].name].id == id; }
  }

  // ---------------------------------------------------------------- gathering rows

  /** Rows that arrived of a query for the enabled agents, in the order the database likes; a stream that
      breaks, or a row that does not scan, is not noticed. */
  ghost predicate Arrived(t: Table, got: seq<Agent>) {
    forall k | 0 <= k < |got| :: got[k].id in t && t[got[k].id] == got[k] && got[k].enabled
  }

  /** ... and they are all of them. */
  ghost predicate Whole(t: Table, got: seq<Agent>) {
    forall i | i in t && t[i].enabled :: t[i] in got
  }

  function ByName(got: seq<Agent>): map<string, Agent> {
    if got == [] then map[] else ByName(got[..|got|-1])[got[|got|-1].name := got[|got|-1]]
  }

  function DefaultName(got: seq<Agent>): string {
    if got == [] then ""
    else if got[|got|-1].isDefault then got[|got|-1].name
    else DefaultName(got[..|got|-1])
  }

  /** What load() makes of the rows. */
  function Gathered(got: seq<Agent>): Snapshot {
    var byName, def := ByName(got), DefaultName(got);
    Snapshot(if def in byName then byName else byName[def := ZERO], def)
  }

  lemma {:induction false} GatheredNames(got: seq<Agent>)
    ensures forall n | n in ByName(got) :: ByName(got)[n] in got && ByName(got)[n].name == n
    ensures forall k | 0 <= k < |got| :: got[k].name in ByName(got)
  {
    if got != [] { GatheredNames(got[..|got|-1]); }
  }

  lemma {:induction false} GatheredDefault(got: seq<Agent>)
    requires forall k | 0 <= k < |got| :: got[k].name != ""
    ensures DefaultName(got) == "" ==> forall k | 0 <= k < |got| :: !got[k].isDefault
    ensures DefaultName(got) != "" ==> exists k :: 0 <= k < |got| && got[k].isDefault && got[k].name == DefaultName(got)
  {
    if got != [] {
      var front := got[..|got|-1];
      GatheredDefault(front);
      if !got[|got|-1].isDefault && DefaultName(got) != "" {
        var k :| 0 <= k < |front| && front[k].isDefault && front[k].name == DefaultName(front);
        assert got[k] == front[k];
      }
    }
  }

  lemma GatheredRows(w: World, t: Table, got: seq<Agent>)
    requires Sound(w, t) && Arrived(t, got)
    ensures "" !in ByName(got)
    ensures forall n | n in ByName(got) :: ByName(got)[n].id in t && t[ByName(got)[n].id] == ByName(got)[n]
              && ByName(got)[n].enabled && n == ByName(got)[n].name
    ensures forall a | a in got :: a.name in ByName(got) && ByName(got)[a.name] == a
    ensures DefaultName(got) != "" ==> DefaultName(got) in ByName(got) && ByName(got)[DefaultName(got)].isDefault
    ensures DefaultName(got) == "" ==> forall a | a in got :: !a.isDefault
  {
    GatheredNames(got);
    GatheredDefault(got);
    forall a | a in got ensures a.name in ByName(got) && ByName(got)[a.name] == a && a.name != "" {
      var k :| 0 <= k < |got| && got[k] == a;
      var b := ByName(got)[a.name];
      var j :| 0 <= j < |got| && got[j] == b;
      assert w.fold(t[a.id].name) == w.fold(t[b.id].name);
    }
  }

  /** The snapshot is right for the table exactly when no row of it was missed. */
  lemma GatheredReflectsExactly(w: World, t: Table, got: seq<Agent>)
    requires Sound(w, t) && Arrived(t, got)
    ensures Gathered(got).def in Gathered(got).byName
    ensures Reflects(t, Gathered(got)) <==> Whole(t, got)
  {
    GatheredRows(w, t, got);
    if Whole(t, got) {
      forall i | i in t && t[i].isDefault ensures t[i] in got {}
      SnapshotReflects(t, ByName(got), DefaultName(got));
    }
    if Reflects(t, Gathered(got)) {
      GatheredNames(got);
      forall i | i in t && t[i].enabled ensures t[i] in got {
        assert t[i].name != "" && t[i].name in Gathered(got).byName;
        assert DefaultName(got) != "" ==> DefaultName(got) in ByName(got);
        assert t[i].name in ByName(got);
      }
    }
  }

  lemma SnapshotReflects(t: Table, byName: map<string, Agent>, def: string)
    requires "" !in byName
    requires forall n | n in byName ::
               byName[n].id in t && t[byName[n].id] == byName[n] && byName[n].enabled && n == byName[n].name
    requires forall i | i in t && t[i].enabled :: t[i].name in byName && byName[t[i].name] == t[i]
    requires if def == "" then !HasDefault(t) else def in byName && byName[def].isDefault
    ensures Reflects(t, Snapshot(if def in byName then byName else byName[def := ZERO], def))
  {
  }

  // ---------------------------------------------------------------- the cache

  datatype Task = Read | Write(op: Op)

  /** The table a snapshot was read from, and the rows of it that arrived. */
  datatype Origin = Origin(version: nat, rows: seq<Agent>)

  datatype Pc =
    | Waiting                                   // a read for the mutex, a write for its transaction
    | Locked                                    // load() holding the mutex
    | Queried(version: nat)
    | Answered(snap: Snapshot, from: Option<Origin>)
    | Committed(version: nat)                   // a write that has not invalidated yet
    | Returned(version: nat)
    | Failed

  /** `since` is the table every write that had returned when this call began is part of. */
  datatype Call = Call(task: Task, pc: Pc, since: nat)

  datatype Cache = Cache(snap: Snapshot, from: Origin)

  /** `log` holds every table there was, the current one last; `floor` the newest one a write has
      invalidated the cache for. */
  datatype State = State(log: seq<Table>, cache: Option<Cache>, holder: Option<nat>, calls: map<nat, Call>, floor: nat)

  /** What the world does to a call's next step: whether the database works, whether the cache is within its
      time to live, and the rows that arrive. */
  datatype Luck = Luck(up: bool, recent: bool, got: seq<Agent>)

  datatype Event =
    | Begin(p: nat, task: Task)
    | Step(p: nat, luck: Luck)
    | Elsewhere(op: Op)                         // another process commits a change

  function Start(t: Table): State {
    State([t], None, None, map[], 0)
  }

  function Current(s: State): Table
    requires s.log != []
  {
    s.log[|s.log|-1]
  }

  function Moved(s: State, p: nat, pc: Pc): State
    requires p in s.calls
  {
    s.(calls := s.calls[p := s.calls[p].(pc := pc)])
  }

  ghost function ReadStep(s: State, p: nat, luck: Luck): Option<State>
    requires p in s.calls && s.log != []
  {
    match s.calls[p].pc
    case Waiting => if s.holder.Some? then None else Some(Moved(s, p, Locked).(holder := Some(p)))
    case Locked =>
      if s.cache.Some? && luck.recent then
        Some(Moved(s, p, Answered(s.cache.value.snap, Some(s.cache.value.from))).(holder := None))
      else if !luck.up then Some(Moved(s, p, Answered(DEGRADED, None)).(holder := None))
      else Some(Moved(s, p, Queried(|s.log| - 1)))
    case Queried(v) =>
      if v >= |s.log| || !Arrived(s.log[v], luck.got) then None
      else
        var snap, from := Gathered(luck.got), Origin(v, luck.got);
        Some(Moved(s, p, Answered(snap, Some(from))).(holder := None, cache := Some(Cache(snap, from))))
    case _ => None
  }

  function WriteStep(w: World, s: State, p: nat, op: Op, up: bool): Option<State>
    requires p in s.calls && s.log != []
  {
    match s.calls[p].pc
    case Waiting =>
      (match Apply(w, Current(s), op)
       case Refused(_) => Some(Moved(s, p, Failed))
       case Done(t) =>
         if !up then Some(Moved(s, p, Failed)) else Some(Moved(s, p, Committed(|s.log|)).(log := s.log + [t])))
    case Committed(v) =>
      if s.holder.Some? then None
      else Some(Moved(s, p, Returned(v)).(cache := None, floor := if v > s.floor then v else s.floor))
    case _ => None
  }

  ghost function Next(w: World, s: State, e: Event): Option<State> {
    match e
    case Begin(p, task) => if p in s.calls then None else Some(s.(calls := s.calls[p := Call(task, Waiting, s.floor)]))
    case Elsewhere(op) => if s.log == [] then None else Some(s.(log := s.log + [Applied(w, Current(s), op)]))
    case Step(p, luck) =>
      if p !in s.calls || s.log == [] then None
      else match s.calls[p].task
        case Read => ReadStep(s, p, luck)
        case Write(op) => WriteStep(w, s, p, op, luck.up)
  }

  ghost function Run(w: World, s: State, es: seq<Event>): Option<State>
    decreases |es|
  {
    if es == [] then Some(s)
    else match Next(w, s, es[0])
      case None => None
      case Some(t) => Run(w, t, es[1..])
  }

  /** A snapshot and what it claims about its origin. */
  ghost predicate Honest(log: seq<Table>, snap: Snapshot, from: Origin) {
    from.version < |log| && Arrived(log[from.version], from.rows) && snap == Gathered(from.rows)
  }

  ghost predicate CallOk(s: State, p: nat, c: Call) {
    && c.since <= s.floor
    && match c.pc
       case Waiting => true
       case Locked => c.task.Read? && s.holder == Some(p)
       case Queried(v) => c.task.Read? && s.holder == Some(p) && s.floor <= v < |s.log|
       case Answered(snap, from) =>
         c.task.Read? && if from.None? then snap == DEGRADED
                         else c.since <= from.value.version && Honest(s.log, snap, from.value)
       case Committed(v) => c.task.Write? && v < |s.log|
       case Returned(v) => c.task.Write? && v <= s.floor
       case Failed => c.task.Write?
  }

  ghost predicate Inv(w: World, s: State) {
    && s.floor < |s.log| && (forall v {:trigger Sound(w, s.log[v])} | 0 <= v < |s.log| :: Sound(w, s.log[v]))
    && (s.cache.Some? ==>
          s.floor <= s.cache.value.from.version && Honest(s.log, s.cache.value.snap, s.cache.value.from))
    && (s.holder.Some? ==>
          s.holder.value in s.calls && (s.calls[s.holder.value].pc.Locked? || s.calls[s.holder.value].pc.Queried?))
    && (forall p | p in s.calls :: CallOk(s, p, s.calls[p]))
  }

  /** What no step undoes. */
  ghost predicate Grows(s: State, t: State) {
    && s.log <= t.log && s.floor <= t.floor
    && (forall p | p in s.calls ::
          p in t.calls && t.calls[p].since == s.calls[p].since && t.calls[p].task == s.calls[p].task)
  }

  lemma OtherCall(s: State, t: State, q: nat, c: Call)
    requires CallOk(s, q, c) && s.log <= t.log && s.floor <= t.floor
    requires c.pc.Locked? || c.pc.Queried? ==> t.holder == s.holder && t.floor == s.floor
    ensures CallOk(t, q, c)
  {
  }

  lemma ReadKeepsInv(w: World, s: State, p: nat, luck: Luck)
    requires Inv(w, s) && p in s.calls && s.calls[p].task.Read? && ReadStep(s, p, luck).Some?
    ensures Inv(w, ReadStep(s, p, luck).value) && Grows(s, ReadStep(s, p, luck).value)
  {
    var t := ReadStep(s, p, luck).value;
    ReaderStep(w, s, p, luck);
    forall q | q in t.calls ensures CallOk(t, q, t.calls[q]) {
      assert CallOk(s, q, s.calls[q]);
      if q != p { OtherCall(s, t, q, s.calls[q]); }
    }
  }

  lemma ReaderAlone(w: World, s: State, p: nat, luck: Luck)
    requires Inv(w, s) && p in s.calls && s.calls[p].task.Read? && ReadStep(s, p, luck).Some?
    ensures var t := ReadStep(s, p, luck).value;
            && t.calls.Keys == s.calls.Keys && CallOk(t, p, t.calls[p]) && t.log == s.log && t.floor == s.floor
            && (t.holder.Some? ==> t.holder == Some(p) && (t.calls[p].pc.Locked? || t.calls[p].pc.Queried?))
            && (t.cache.Some? ==>
                  t.floor <= t.cache.value.from.version && Honest(t.log, t.cache.value.snap, t.cache.value.from))
  {
    assert CallOk(s, p, s.calls[p]);
  }

  lemma ReaderStep(w: World, s: State, p: nat, luck: Luck)
    requires Inv(w, s) && p in s.calls && s.calls[p].task.Read? && ReadStep(s, p, luck).Some?
    ensures var t := ReadStep(s, p, luck).value;
            && t.calls.Keys == s.calls.Keys && CallOk(t, p, t.calls[p]) && t.log == s.log && t.floor == s.floor
            && (t.holder.Some? ==> t.holder == Some(p) && (t.calls[p].pc.Locked? || t.calls[p].pc.Queried?))
            && (t.cache.Some? ==>
                  t.floor <= t.cache.value.from.version && Honest(t.log, t.cache.value.snap, t.cache.value.from))
            && (forall q | q in s.calls && q != p ::
                  t.calls[q] == s.calls[q] && !s.calls[q].pc.Locked? && !s.calls[q].pc.Queried?)
            && t.calls[p].since == s.calls[p].since && t.calls[p].task == s.calls[p].task
  {
    ReaderAlone(w, s, p, luck);
    forall q | q in s.calls && q != p ensures !s.calls[q].pc.Locked? && !s.calls[q].pc.Queried? {
      assert CallOk(s, q, s.calls[q]);
    }
  }

  lemma WriteKeepsInv(w: World, s: State, p: nat, op: Op, up: bool)
    requires Inv(w, s) && p in s.calls && s.calls[p].task == Write(op) && WriteStep(w, s, p, op, up).Some?
    ensures Inv(w, WriteStep(w, s, p, op, up).value) && Grows(s, WriteStep(w, s, p, op, up).value)
  {
    var t := WriteStep(w, s, p, op, up).value;
    WriterStep(w, s, p, op, up);
    forall q | q in t.calls ensures CallOk(t, q, t.calls[q]) {
      assert CallOk(s, q, s.calls[q]);
      if q != p { OtherCall(s, t, q, s.calls[q]); }
    }
  }

  lemma WriterStep(w: World, s: State, p: nat, op: Op, up: bool)
    requires Inv(w, s) && p in s.calls && s.calls[p].task == Write(op) && WriteStep(w, s, p, op, up).Some?
    ensures var t := WriteStep(w, s, p, op, up).value;
            && t.calls.Keys == s.calls.Keys && CallOk(t, p, t.calls[p]) && t.holder == s.holder && s.log <= t.log
            && (forall v {:trigger Sound(w, t.log[v])} | 0 <= v < |t.log| :: Sound(w, t.log[v]))
            && s.floor <= t.floor < |t.log| && (t.floor != s.floor ==> s.holder == None)
            && (t.cache == None || t.cache == s.cache) && (t.floor != s.floor ==> t.cache == None)
            && (forall q | q in s.calls && q != p :: t.calls[q] == s.calls[q])
            && t.calls[p].since == s.calls[p].since && t.calls[p].task == s.calls[p].task
            && (s.holder != Some(p))
  {
    assert CallOk(s, p, s.calls[p]);
    if s.calls[p].pc.Committed? { WriterReturns(w, s, p, op, up); } else { WriterCommits(w, s, p, op, up); }
  }

  lemma WriterCommits(w: World, s: State, p: nat, op: Op, up: bool)
    requires Inv(w, s) && p in s.calls && s.calls[p].task == Write(op) && s.calls[p].pc.Waiting?
    requires WriteStep(w, s, p, op, up).Some?
    ensures var t := WriteStep(w, s, p, op, up).value;
            && CallOk(t, p, t.calls[p]) && t.holder == s.holder && t.floor == s.floor && t.cache == s.cache
            && s.log <= t.log && forall v {:trigger Sound(w, t.log[v])} | 0 <= v < |t.log| :: Sound(w, t.log[v])
  {
    AppliedKeepsSound(w, Current(s), op);
    assert Sound(w, Current(s));
    assert CallOk(s, p, s.calls[p]);
  }

  lemma WriterReturns(w: World, s: State, p: nat, op: Op, up: bool)
    requires Inv(w, s) && p in s.calls && s.calls[p].task == Write(op) && s.calls[p].pc.Committed?
    requires WriteStep(w, s, p, op, up).Some?
    ensures var t := WriteStep(w, s, p, op, up).value;
            && CallOk(t, p, t.calls[p]) && t.log == s.log && s.holder == None && t.holder == None && t.cache == None
            && s.floor <= t.floor < |t.log|
  {
    assert CallOk(s, p, s.calls[p]);
  }

  lemma NextKeepsInv(w: World, s: State, e: Event)
    requires Inv(w, s) && Next(w, s, e).Some?
    ensures Inv(w, Next(w, s, e).value) && Grows(s, Next(w, s, e).value)
  {
    match e
    case Step(p, luck) =>
      if s.calls[p].task.Read? {
        ReadKeepsInv(w, s, p, luck);
      } else {
        WriteKeepsInv(w, s, p, s.calls[p].task.op, luck.up);
      }
    case Elsewhere(op) =>
      AppliedKeepsSound(w, Current(s), op);
      OthersKeepInv(w, s, e);
    case Begin(_, _) => OthersKeepInv(w, s, e);
  }

  lemma OthersKeepInv(w: World, s: State, e: Event)
    requires Inv(w, s) && Next(w, s, e).Some? && !e.Step? && (e.Elsewhere? ==> Sound(w, Applied(w, Current(s), e.op)))
    ensures Inv(w, Next(w, s, e).value) && Grows(s, Next(w, s, e).value)
  {
    var t := Next(w, s, e).value;
    forall q | q in t.calls ensures CallOk(t, q, t.calls[q]) {
      if q in s.calls { OtherCall(s, t, q, s.calls[q]); }
    }
  }

  lemma {:induction false} RunKeepsInv(w: World, s: State, es: seq<Event>)
    requires Inv(w, s) && Run(w, s, es).Some?
    ensures Inv(w, Run(w, s, es).value) && Grows(s, Run(w, s, es).value)
    decreases |es|
  {
    if es != [] {
      NextKeepsInv(w, s, es[0]);
      RunKeepsInv(w, Next(w, s, es[0]).value, es[1..]);
    }
  }

  lemma ReflectedDefault(w: World, t: Table, s: Snapshot)
    requires Sound(w, t) && Reflects(t, s)
    ensures IsDefaultAgent(t, s.byName[s.def])
  {
    ResolveIsRight(w, t, s, "");
  }

  /** For every interleaving of reads, writes and other processes: a read that begins after a write has
      returned is answered from a table at least as new as that write's; the answer reflects that table
      exactly when all its rows arrived, whether it was read just now or cached; and then its default is the
      table's. */
  lemma ReadsSeeReturnedWrites(w: World, t: Table, before: seq<Event>, s1: State, p: nat, after: seq<Event>, s2: State,
                               q: nat)
    requires Sound(w, t) && Run(w, Start(t), before) == Some(s1)
    requires Run(w, s1, [Begin(p, Read)] + after) == Some(s2)
    requires q in s1.calls && s1.calls[q].pc.Returned?
    ensures p in s2.calls
    ensures s2.calls[p].pc.Answered? && s2.calls[p].pc.from.Some? ==>
              var snap, from := s2.calls[p].pc.snap, s2.calls[p].pc.from.value;
              && s1.calls[q].pc.version <= from.version < |s2.log|
              && Arrived(s2.log[from.version], from.rows)
              && (Reflects(s2.log[from.version], snap) <==> Whole(s2.log[from.version], from.rows))
              && (Reflects(s2.log[from.version], snap) ==>
                    IsDefaultAgent(s2.log[from.version], snap.byName[snap.def]))
  {
    RunKeepsInv(w, Start(t), before);
    assert CallOk(s1, q, s1.calls[q]);
    var es := [Begin(p, Read)] + after;
    assert es[1..] == after;
    var s := Next(w, s1, es[0]).value;
    NextKeepsInv(w, s1, es[0]);
    RunKeepsInv(w, s, after);
    assert CallOk(s2, p, s2.calls[p]);
    var pc := s2.calls[p].pc;
    if pc.Answered? && pc.from.Some? {
      var read := s2.log[pc.from.value.version];
      GatheredReflectsExactly(w, read, pc.from.value.rows);
      if Reflects(read, pc.snap) { ReflectedDefault(w, read, pc.snap); }
    }
  }

  /** A call's next `n` steps. */
  ghost function Drive(w: World, s: State, p: nat, luck: Luck, n: nat): Option<State>
    decreases n
  {
    if n == 0 then Some(s)
    else match Next(w, s, Step(p, luck))
      case None => None
      case Some(t) => Drive(w, t, p, luck, n - 1)
  }

  /** A read that breaks off is cached like any other: until the cache expires or a write drops it, later
      reads are answered from it, and it reflects no such table. */
  lemma BrokenReadIsCached(w: World, s: State, p: nat, luck: Luck, q: nat, later: Luck)
    requires Inv(w, s) && p in s.calls && s.calls[p].task.Read? && s.calls[p].pc.Queried?
    requires s.calls[p].pc.version < |s.log| && Arrived(s.log[s.calls[p].pc.version], luck.got)
    requires !Whole(s.log[s.calls[p].pc.version], luck.got)
    requires q in s.calls && q != p && s.calls[q].task.Read? && s.calls[q].pc.Waiting? && later.recent
    ensures Next(w, s, Step(p, luck)).Some? && Drive(w, Next(w, s, Step(p, luck)).value, q, later, 2).Some?
    ensures var t := Drive(w, Next(w, s, Step(p, luck)).value, q, later, 2).value;
            && q in t.calls && t.calls[q].pc.Answered? && t.calls[q].pc.from.Some?
            && t.calls[q].pc.from.value.version < |t.log|
            && !Reflects(t.log[t.calls[q].pc.from.value.version], t.calls[q].pc.snap)
  {
    BrokenReadEnds(w, s, p, luck, q);
    CachedAnswers(w, Next(w, s, Step(p, luck)).value, q, later);
  }

  lemma BrokenReadEnds(w: World, s: State, p: nat, luck: Luck, q: nat)
    requires Inv(w, s) && p in s.calls && s.calls[p].task.Read? && s.calls[p].pc.Queried?
    requires s.calls[p].pc.version < |s.log| && Arrived(s.log[s.calls[p].pc.version], luck.got)
    requires !Whole(s.log[s.calls[p].pc.version], luck.got) && q in s.calls && q != p
    ensures Next(w, s, Step(p, luck)).Some?
    ensures var t := Next(w, s, Step(p, luck)).value;
            && t.log == s.log && t.holder == None && q in t.calls && t.calls[q] == s.calls[q] && t.cache.Some?
            && t.cache.value.from.version < |t.log| && !Reflects(t.log[t.cache.value.from.version], t.cache.value.snap)
  {
    GatheredReflectsExactly(w, s.log[s.calls[p].pc.version], luck.got);
  }

  lemma CachedAnswers(w: World, s: State, q: nat, later: Luck)
    requires s.log != [] && s.holder == None && s.cache.Some? && later.recent
    requires q in s.calls && s.calls[q].task.Read? && s.calls[q].pc.Waiting?
    ensures Drive(w, s, q, later, 2).Some?
    ensures var t := Drive(w, s, q, later, 2).value;
            && t.log == s.log && q in t.calls
            && t.calls[q].pc == Answered(s.cache.value.snap, Some(s.cache.value.from))
  {
    var s1 := ReadStep(s, q, later).value;
    var s2 := ReadStep(s1, q, later).value;
    DriveMore(w, s1, s2, q, later, 0);
    DriveMore(w, s, s1, q, later, 1);
  }

  /** A call driven alone is a run of the machine. */
  lemma {:induction false} DriveIsARun(w: World, s: State, p: nat, luck: Luck, n: nat)
    ensures Drive(w, s, p, luck, n) == Run(w, s, seq(n, _ => Step(p, luck)))
    decreases n
  {
    if n > 0 {
      var es := seq(n, _ => Step(p, luck));
      assert es[0] == Step(p, luck) && es[1..] == seq(n - 1, _ => Step(p, luck));
      if Next(w, s, es[0]).Some? { DriveIsARun(w, Next(w, s, es[0]).value, p, luck, n - 1); }
    }
  }

  // ---------------------------------------------------------------- the store's methods

  datatype Reply = Ok | Rejected(error: Error) | Fault

  /** A reply to a change that may meet an outage. */
  ghost predicate Replies(o: Outcome, up: bool, r: Reply) {
    match r
    case Ok => o.Done? && up
    case Rejected(e) => o == Refused(e)
    case Fault => !up
  }

  /** A state with no call holding the mutex, seen as a table and a cache. */
  ghost predicate Shows(w: World, s: State, table: Table, cached: Option<Snapshot>) {
    && Inv(w, s) && s.holder == None && Current(s) == table
    && cached == Shown(s.cache)
  }

  /** A load's answer and what it leaves cached: the cache while it is recent, else what arrives of the table's
      rows, else the zero-value agent. */
  predicate LoadedAs(cached: Option<Snapshot>, luck: Luck, s: Snapshot, cached': Option<Snapshot>) {
    if cached.Some? && luck.recent then s == cached.value && cached' == cached
    else if luck.up then s == Gathered(luck.got) && cached' == Some(s)
    else s == DEGRADED && cached' == cached
  }

  function Shown(cache: Option<Cache>): Option<Snapshot> {
    if cache.Some? then Some(cache.value.snap) else None
  }

  lemma Began(w: World, s: State, p: nat, task: Task) returns (t: State)
    requires Inv(w, s) && p !in s.calls
    ensures Next(w, s, Begin(p, task)) == Some(t) && Inv(w, t)
    ensures t == s.(calls := s.calls[p := Call(task, Waiting, s.floor)])
  {
    t := Next(w, s, Begin(p, task)).value;
    NextKeepsInv(w, s, Begin(p, task));
  }

  lemma {:induction false} DriveKeepsInv(w: World, s: State, p: nat, luck: Luck, n: nat)
    requires Inv(w, s) && Drive(w, s, p, luck, n).Some?
    ensures Inv(w, Drive(w, s, p, luck, n).value)
    decreases n
  {
    if n > 0 {
      NextKeepsInv(w, s, Step(p, luck));
      DriveKeepsInv(w, Next(w, s, Step(p, luck)).value, p, luck, n - 1);
    }
  }

  /** A read driven alone ends with what load() answers. */
  lemma ReadAlone(w: World, was: State, p: nat, luck: Luck, snap: Snapshot, cached': Option<Snapshot>)
    returns (s0: State, n: nat, s: State)
    requires Inv(w, was) && was.holder == None && p !in was.calls
    requires Arrived(Current(was), luck.got) && LoadedAs(Shown(was.cache), luck, snap, cached')
    ensures Next(w, was, Begin(p, Read)) == Some(s0) && n <= 3 && Drive(w, s0, p, luck, n) == Some(s)
    ensures Inv(w, s) && s.holder == None && s.log == was.log && Shown(s.cache) == cached'
    ensures p in s.calls && s.calls[p].pc.Answered? && s.calls[p].pc.snap == snap
  {
    s0 := Began(w, was, p, Read);
    n, s := ReadBegun(w, s0, p, luck, snap, cached');
    DriveKeepsInv(w, s0, p, luck, n);
  }

  /** The same of a state that shows a table and a cache. */
  lemma ReadWhole(w: World, was: State, p: nat, luck: Luck, table: Table, cached: Option<Snapshot>, snap: Snapshot,
                  cached': Option<Snapshot>) returns (s0: State, n: nat, s: State)
    requires Shows(w, was, table, cached) && p !in was.calls && Arrived(table, luck.got)
    requires LoadedAs(cached, luck, snap, cached')
    ensures Shows(w, s, table, cached') && n <= 3 && p in s.calls && s.calls[p].pc.Answered?
    ensures s.calls[p].pc.snap == snap
    ensures Next(w, was, Begin(p, Read)) == Some(s0) && Drive(w, s0, p, luck, n) == Some(s)
  {
    s0, n, s := ReadAlone(w, was, p, luck, snap, cached');
  }

  lemma ReadBegun(w: World, s0: State, p: nat, luck: Luck, snap: Snapshot, cached': Option<Snapshot>)
    returns (n: nat, s: State)
    requires s0.log != [] && p in s0.calls && s0.calls[p].task.Read? && s0.calls[p].pc == Waiting && s0.holder == None
    requires Arrived(Current(s0), luck.got) && LoadedAs(Shown(s0.cache), luck, snap, cached')
    ensures s.holder == None && s.log == s0.log && n <= 3 && Drive(w, s0, p, luck, n) == Some(s)
    ensures p in s.calls && s.calls[p].pc.Answered? && s.calls[p].pc.snap == snap && Shown(s.cache) == cached'
  {
    var s1 := Moved(s0, p, Locked).(holder := Some(p));
    assert Next(w, s0, Step(p, luck)) == Some(s1);
    var m;
    m, s := ReadLocked(w, s1, p, luck, snap, cached');
    n := m + 1;
    DriveMore(w, s0, s1, p, luck, m);
  }

  lemma ReadLocked(w: World, s1: State, p: nat, luck: Luck, snap: Snapshot, cached': Option<Snapshot>)
    returns (n: nat, s: State)
    requires s1.log != [] && p in s1.calls && s1.calls[p].task.Read? && s1.calls[p].pc == Locked && s1.holder == Some(p)
    requires Arrived(Current(s1), luck.got) && LoadedAs(Shown(s1.cache), luck, snap, cached')
    ensures s.holder == None && s.log == s1.log && n <= 2 && Drive(w, s1, p, luck, n) == Some(s)
    ensures p in s.calls && s.calls[p].pc.Answered? && s.calls[p].pc.snap == snap && Shown(s.cache) == cached'
  {
    var s2 := ReadStep(s1, p, luck).value;
    n, s := 1, s2;
    DriveMore(w, s1, s2, p, luck, 0);
    if !(s1.cache.Some? && luck.recent) && luck.up {
      var s3 := ReadStep(s2, p, luck).value;
      n, s := 2, s3;
      DriveMore(w, s2, s3, p, luck, 0);
      DriveMore(w, s1, s2, p, luck, 1);
    }
  }

  lemma DriveMore(w: World, s: State, t: State, p: nat, luck: Luck, n: nat)
    requires Next(w, s, Step(p, luck)) == Some(t)
    ensures Drive(w, s, p, luck, n + 1) == Drive(w, t, p, luck, n)
  {
  }

  /** A write driven alone ends with what the method replies. */
  lemma WriteAlone(w: World, was: State, p: nat, op: Op, up: bool, r: Reply) returns (s0: State, n: nat, s: State)
    requires Inv(w, was) && was.holder == None && p !in was.calls && Replies(Apply(w, Current(was), op), up, r)
    ensures Next(w, was, Begin(p, Write(op))) == Some(s0) && n <= 2
    ensures forall got :: Drive(w, s0, p, Luck(up, false, got), n) == Some(s)
    ensures Inv(w, s) && s.holder == None && s.cache == (if r.Ok? then None else was.cache)
    ensures Current(s) == if r.Ok? then Applied(w, Current(was), op) else Current(was)
    ensures p in s.calls && if r.Ok? then s.calls[p].pc.Returned? else s.calls[p].pc.Failed?
  {
    s0 := Began(w, was, p, Write(op));
    n, s := WriteBegun(w, s0, p, op, up, r);
    DriveKeepsInv(w, s0, p, Luck(up, false, []), n);
  }

  lemma WriteWhole(w: World, was: State, p: nat, op: Op, up: bool, table: Table, cached: Option<Snapshot>, r: Reply)
    returns (s0: State, n: nat, s: State)
    requires Shows(w, was, table, cached) && p !in was.calls && Replies(Apply(w, table, op), up, r)
    ensures Shows(w, s, if r.Ok? then Applied(w, table, op) else table, if r.Ok? then None else cached)
    ensures n <= 2 && p in s.calls && if r.Ok? then s.calls[p].pc.Returned? else s.calls[p].pc.Failed?
    ensures Next(w, was, Begin(p, Write(op))) == Some(s0)
    ensures forall got :: Drive(w, s0, p, Luck(up, false, got), n) == Some(s)
  {
    s0, n, s := WriteAlone(w, was, p, op, up, r);
  }

  lemma WriteBegun(w: World, s0: State, p: nat, op: Op, up: bool, r: Reply) returns (n: nat, s: State)
    requires s0.log != [] && p in s0.calls && s0.calls[p].task == Write(op) && s0.calls[p].pc == Waiting
    requires s0.holder == None && Replies(Apply(w, Current(s0), op), up, r)
    ensures s.log != [] && s.holder == None && n <= 2 && p in s.calls
    ensures Current(s) == if r.Ok? then Applied(w, Current(s0), op) else Current(s0)
    ensures s.cache == if r.Ok? then None else s0.cache
    ensures if r.Ok? then s.calls[p].pc.Returned? else s.calls[p].pc.Failed?
    ensures forall got :: Drive(w, s0, p, Luck(up, false, got), n) == Some(s)
  {
    var s1 := WriteStep(w, s0, p, op, up).value;
    n, s := 1, s1;
    forall got ensures Drive(w, s0, p, Luck(up, false, got), 1) == Some(s1) {
      DriveMore(w, s0, s1, p, Luck(up, false, got), 0);
    }
    if r.Ok? {
      var s2 := WriteStep(w, s1, p, op, up).value;
      n, s := 2, s2;
      forall got ensures Drive(w, s0, p, Luck(up, false, got), 2) == Some(s2) {
        DriveMore(w, s1, s2, p, Luck(up, false, got), 0);
        DriveMore(w, s0, s1, p, Luck(up, false, got), 1);
      }
    }
  }

  class Store {
    const w: World
    var table: Table
    var cached: Option<Snapshot>
    ghost var state: State   // the machine this object has been a part of

    constructor (w: World, table: Table)
      requires Sound(w, table)
      ensures Valid() && Tied() && this.w == w && this.table == table && state == Start(table)
    {
      this.w, this.table, cached, state := w, table, None, Start(table);
    }

    ghost predicate Valid()
      reads this
    {
      Sound(w, table) && (cached.Some? ==> cached.value.def in cached.value.byName)
    }

    /** The object shows what the machine holds, with no call of its own in progress. */
    ghost predicate Tied()
      reads this
    {
      Shows(w, state, table, cached)
    }

    /** load(): the cache while it is recent, else what arrives of the table's rows, else the zero-value agent. */
    method Load(got: seq<Agent>, up: bool, recent: bool) returns (s: Snapshot)
      requires Valid() && Arrived(table, got)
      modifies this`cached
      ensures Valid() && s.def in s.byName
      ensures LoadedAs(old(cached), Luck(up, recent, got), s, cached)
      ensures !(old(cached).Some? && recent) && up ==> (Reflects(table, s) <==> Whole(table, got))
    {
      if cached.Some? && recent {
        return cached.value;
      }
      if !up {
        return DEGRADED;
      }
      var byName: map<string, Agent>, def := map[], "";
      for k := 0 to |got|
        invariant byName == ByName(got[..k]) && def == DefaultName(got[..k])
      {
        assert got[..k+1][..k] == got[..k];
        byName := byName[got[k].name := got[k]];
        if got[k].isDefault {
          def := got[k].name;
        }
      }
      assert got[..|got|] == got;
      GatheredReflectsExactly(w, table, got);
      if def !in byName {
        byName := byName[def := ZERO];
      }
      s := Snapshot(byName, def);
      cached := Some(s);
    }

    method Invalidate()
      modifies this`cached
      ensures cached == None
    {
      cached := None;
    }

    method ResolveByName(name: string, got: seq<Agent>, up: bool, recent: bool)
      returns (r: (Agent, bool), ghost s: Snapshot)
      requires Valid() && Arrived(table, got)
      modifies this`cached
      ensures Valid() && s.def in s.byName && r == Resolve(s, name)
      ensures up && (old(cached).None? || !recent) && Whole(table, got) ==> Reflects(table, s)
    {
      var snap := Load(got, up, recent);
      s := snap;
      if name == "" {
        return (snap.byName[snap.def], true), s;
      }
      if name !in snap.byName {
        return (snap.byName[snap.def], false), s;
      }
      r := (snap.byName[name], true);
    }

    method ResolveByID(id: string, got: seq<Agent>, up: bool, recent: bool)
      returns (r: (Agent, bool), ghost s: Snapshot)
      requires Valid() && Arrived(table, got)
      modifies this`cached
      ensures Valid() && s.def in s.byName && AnswersId(s, id, r)
      ensures up && (old(cached).None? || !recent) && Whole(table, got) ==> Reflects(table, s)
    {
      var snap := Load(got, up, recent);
      s := snap;
      if id == "" {
        return (snap.byName[snap.def], true), s;
      }
      var left := snap.byName.Keys;
      while left != {}
        invariant left <= snap.byName.Keys
        invariant forall n | n in snap.byName && n !in left :: snap.byName[n].id != id
        decreases |left|
      {
        var n :| n in left;
        if snap.byName[n].id == id {
          return (snap.byName[n], true), s;
        }
        left := left - {n};
      }
      r := (snap.byName[snap.def], false);
    }

    method CreateAgent(id: string, a: Agent, up: bool) returns (r: Reply)
      requires Valid()
      modifies this`table, this`cached
      ensures Valid() && Replies(Apply(w, old(table), Op.Create(id, a)), up, r)
      ensures if r.Ok? then table == Applied(w, old(table), Op.Create(id, a)) && cached == None
              else table == old(table) && cached == old(cached)
    {
      ghost var op := Op.Create(id, a);
      AppliedKeepsSound(w, table, op);
      var name := ValidName(a.name);
      if name.None? || !ValidHarness(w, a.columns) {
        return Rejected(Error.Invalid);
      }
      if !up {
        return Fault;
      }
      if id in table || NameTaken(w, table, id, name.value) {
        return Rejected(NameConflict);
      }
      table := table[id := a.(id := id, name := name.value, isDefault := false)];
      Invalidate();
      r := Ok;
    }

    /** The row with the given fields changed; the default cannot be disabled. */
    method Edited(before: Agent, name: Option<string>, p: Op) returns (edited: Option<Agent>)
      requires p.Patch?
      ensures edited == if p.enabled == Some(false) && before.isDefault then None else Some(Patched(before, name, p))
    {
      var after := before;
      if name.Some? {
        after := after.(name := name.value);
      }
      if p.memory.Some? {
        after := after.(memory := p.memory.value);
      }
      if p.enabled.Some? {
        if !p.enabled.value && before.isDefault {
          return None;
        }
        after := after.(enabled := p.enabled.value);
      }
      edited := Some(after.(columns := after.columns + p.columns));
    }

    method PatchAgent(p: Op, up: bool) returns (r: Reply)
      requires Valid() && p.Patch?
      modifies this`table, this`cached
      ensures Valid() && Replies(Apply(w, old(table), p), up, r)
      ensures if r.Ok? then table == Applied(w, old(table), p) && cached == None
              else table == old(table) && cached == old(cached)
    {
      AppliedKeepsSound(w, table, p);
      var name := None;
      if p.name.Some? {
        name := ValidName(p.name.value);
        if name.None? {
          return Rejected(Error.Invalid);
        }
      }
      if !ValidHarness(w, p.columns) {
        return Rejected(Error.Invalid);
      }
      if !up {
        return Fault;
      }
      if p.id !in table {
        return Rejected(NotFound);
      }
      var after := Edited(table[p.id], name, p);
      if after.None? {
        return Rejected(Error.Invalid);
      }
      if NameTaken(w, table, p.id, after.value.name) {
        return Rejected(NameConflict);
      }
      table := table[p.id := after.value];
      Invalidate();
      r := Ok;
    }

    method MakeDefault(id: string, up: bool) returns (r: Reply)
      requires Valid()
      modifies this`table, this`cached
      ensures Valid() && Replies(Apply(w, old(table), Op.SetDefault(id)), up, r)
      ensures if r.Ok? then table == Applied(w, old(table), Op.SetDefault(id)) && cached == None
              else table == old(table) && cached == old(cached)
    {
      AppliedKeepsSound(w, table, Op.SetDefault(id));
      if !up {
        return Fault;
      }
      if id !in table {
        return Rejected(NotFound);
      }
      if !table[id].enabled {
        return Rejected(Error.Invalid);
      }
      var tx := Undefaulted(table);
      tx := tx[id := tx[id].(isDefault := true)];
      table := tx;
      Invalidate();
      r := Ok;
    }

    method DeleteAgent(id: string, referenced: bool, up: bool) returns (r: Reply)
      requires Valid()
      modifies this`table, this`cached
      ensures Valid() && Replies(Apply(w, old(table), Op.Delete(id, referenced)), up, r)
      ensures if r.Ok? then table == Applied(w, old(table), Op.Delete(id, referenced)) && cached == None
              else table == old(table) && cached == old(cached)
    {
      AppliedKeepsSound(w, table, Op.Delete(id, referenced));
      if !up {
        return Fault;
      }
      if id !in table {
        return Rejected(NotFound);
      }
      if table[id].isDefault || referenced {
        return Rejected(Error.InUse);
      }
      table := table - {id};
      Invalidate();
      r := Ok;
    }

    /** A whole read, as the machine takes it. */
    method Read(ghost p: nat, got: seq<Agent>, up: bool, recent: bool) returns (s: Snapshot, ghost n: nat)
      requires Valid() && Tied() && Arrived(table, got) && p !in state.calls
      modifies this`cached, this`state
      ensures Valid() && Tied() && n <= 3 && p in state.calls && state.calls[p].pc.Answered?
      ensures state.calls[p].pc.snap == s
      ensures Next(w, old(state), Begin(p, Task.Read)).Some?
      ensures Drive(w, Next(w, old(state), Begin(p, Task.Read)).value, p, Luck(up, recent, got), n) == Some(state)
    {
      s := Load(got, up, recent);
      ghost var begun;
      begun, n, state := ReadWhole(w, state, p, Luck(up, recent, got), table, old(cached), s, cached);
    }

    /** A whole write, as the machine takes it. */
    method Write(ghost p: nat, op: Op, up: bool) returns (r: Reply, ghost n: nat)
      requires Valid() && Tied() && p !in state.calls
      modifies this
      ensures Valid() && Tied() && n <= 2 && p in state.calls
      ensures if r.Ok? then state.calls[p].pc.Returned? else state.calls[p].pc.Failed?
      ensures Next(w, old(state), Begin(p, Task.Write(op))).Some?
      ensures forall got ::
                Drive(w, Next(w, old(state), Begin(p, Task.Write(op))).value, p, Luck(up, false, got), n) == Some(state)
    {
      match op {
        case Create(id, a) => r := CreateAgent(id, a, up);
        case Patch(_, _, _, _, _) => r := PatchAgent(op, up);
        case SetDefault(id) => r := MakeDefault(id, up);
        case Delete(id, referenced) => r := DeleteAgent(id, referenced, up);
      }
      ghost var begun;
      begun, n, state := WriteWhole(w, state, p, op, up, old(table), old(cached), r);
    }

    /** Another process commits a change. */
    method Meanwhile(op: Op)
      requires Valid() && Tied()
      modifies this`table, this`state
      ensures Valid() && Tied() && Next(w, old(state), Elsewhere(op)) == Some(state)
    {
      AppliedKeepsSound(w, table, op);
      NextKeepsInv(w, state, Elsewhere(op));
      state := Next(w, state, Elsewhere(op)).value;
      table := Applied(w, table, op);
    }
  }
}
