/** Containers on one Docker daemon that several sandboxd instances share
    (internal/sandboxd/docker.go, internal/sandboxd/services.go).

    Every daemon call of every instance is one event; between any two calls of one operation the
    other instances and outsiders may do anything. */
module Sandbox {
  import opened Options

  /** What a container was created with; labels never change.  `owner` and `spec` are "" when
      absent; `made` is the fingerprint text of the service spec createService built it from. */
  datatype Labels = Labels(owner: string, spec: string, made: Option<string>)

  datatype Container = Container(name: string, running: bool)

  /** `born` holds the labels of every container there ever was; ids are not reused. */
  datatype Daemon = Daemon(live: map<nat, Container>, born: map<nat, Labels>)

  /** What an operation knows of a container it inspected. */
  datatype Found = Found(id: nat, labels: Labels, running: bool)

  datatype Pc =
    | Looking                // ContainerInspect(name)
    | Creating
    | Pulling                // the image was missing
    | Recreating             // ContainerCreate once more, and only once
    | LookingAgain           // ContainerInspect after a conflict
    | Starting(id: nat)      // a container that was found
    | Linking(id: nat)       // NetworkConnect of a service that may reach the internet
    | Launching(id: nat)     // a container just created
    | Reporting(id: nat)     // EnsureService's closing ContainerInspect(name)
    | Deleting(id: nat)
    | Replacing(id: nat)     // EnsureService removing a container of another spec
    | Undoing(id: nat)       // createService removing what it could not start
    | Returned(id: nat)
    | Kept(id: nat)
    | Reported(id: nat, shown: nat)   // made `id`; the status is of whatever has the name now
    | Stopped(ok: bool)

  datatype Job = Ensure | Remove | Service(text: string, internet: bool)

  /** The daemon's reply to one call: it works, it fails, it fails as a conflict, or the image is missing. */
  datatype Reply = Up | Down | Busy | Missing

  /** One operation of one instance. */
  datatype Proc = Proc(owner: string, name: string, job: Job, pc: Pc)

  datatype Deed = Created | Linked | Started | Deleted

  /** An action on a container id: who did it, for which job. */
  datatype Act = Act(owner: string, job: Job, deed: Deed, id: nat)

  datatype State = State(d: Daemon, procs: map<nat, Proc>, acts: seq<Act>)

  datatype Event =
    | Begin(p: nat, owner: string, name: string, job: Job)
    | Call(p: nat, reply: Reply, pick: nat)
    | Outsider(move: Move)

  datatype Move =
    | Make(id: nat, name: string, labels: Labels, running: bool)
    | Boot(id: nat)
    | Halt(id: nat)
    | Destroy(id: nat)

  const NO_ONE := State(Daemon(map[], map[]), map[], [])

  /** checkOwner: no owner label, or this instance's. */
  predicate MayUse(owner: string, labels: Labels) {
    labels.owner == "" || labels.owner == owner
  }

  /** The container of that name, if any; `pick` is its id. */
  predicate Named(d: Daemon, name: string, pick: nat) {
    pick in d.live && pick in d.born && d.live[pick].name == name
  }

  predicate Taken(d: Daemon, name: string) {
    exists i | i in d.live :: d.live[i].name == name
  }

  function SetRunning(d: Daemon, id: nat): Daemon
    requires id in d.live
  {
    d.(live := d.live[id := d.live[id].(running := true)])
  }

  /** What a look at a container decides. */
  function Seen(hash: string -> string, p: Proc, f: Found): Pc {
    match p.job
    case Ensure =>
      if !MayUse(p.owner, f.labels) then Stopped(false)
      else if f.running then Returned(f.id)
      else Starting(f.id)
    case Remove =>
      if f.labels.owner != p.owner then Stopped(true) else Deleting(f.id)
    case Service(text, _) =>
      if !MayUse(p.owner, f.labels) then Stopped(false)
      else if f.labels.spec == hash(text) && f.running then Kept(f.id)
      else Replacing(f.id)
  }

  function Unseen(p: Proc): Pc {
    if p.job.Remove? then Stopped(true)
    else if p.pc.LookingAgain? then Stopped(false)
    else Creating
  }

  function LabelsFor(hash: string -> string, p: Proc): Labels {
    match p.job
    case Service(text, _) => Labels(p.owner, hash(text), Some(text))
    case _ => Labels(p.owner, "", None)
  }

  /** One daemon call of one operation.  `pick` is the id the daemon answers with: of the container of
      that name, or of the new one. */
  function CallNext(hash: string -> string, d: Daemon, p: Proc, reply: Reply, pick: nat): Option<(Daemon, Pc,
                    seq<Act>)> {
    match p.pc
    case Looking => Look(hash, d, p, reply.Up?, pick)
    case LookingAgain => Look(hash, d, p, reply.Up?, pick)
    case Creating => if reply.Missing? then Some((d, Pulling, [])) else Create(hash, d, p, reply, pick)
    case Pulling => Some((d, if reply.Up? then Recreating else Stopped(false), []))
    case Recreating => Create(hash, d, p, reply, pick)
    case Linking(id) =>
      if reply.Up? && id in d.live then Some((d, Launching(id), [Act(p.owner, p.job, Linked, id)]))
      else Some((d, Undoing(id), []))
    case Launching(id) =>
      Start(d, p, id, reply, if p.job.Service? then Reporting(id) else Returned(id), Unlaunched(p, id, reply))
    case Starting(id) => Start(d, p, id, reply, Returned(id), Stopped(false))
    case Reporting(id) =>
      if !reply.Up? || !Taken(d, p.name) then Some((d, Stopped(false), []))
      else if !Named(d, p.name, pick) then None
      else Some((d, Reported(id, pick), []))
    case Deleting(id) => Erase(d, p, id, reply.Up?, Stopped(true), Stopped(false))
    case Replacing(id) => Erase(d, p, id, reply.Up?, Creating, Stopped(false))
    case Undoing(id) => Erase(d, p, id, reply.Up?, Stopped(false), Stopped(false))
    case _ => None
  }

  function Look(hash: string -> string, d: Daemon, p: Proc, up: bool, pick: nat): Option<(Daemon, Pc, seq<Act>)> {
    if !up then Some((d, Stopped(false), []))
    else if !Taken(d, p.name) then Some((d, Unseen(p), []))
    else if !Named(d, p.name, pick) then None
    else Some((d, Seen(hash, p, Found(pick, d.born[pick], d.live[pick].running)), []))
  }

  /** ContainerCreate; a conflict leads ensureContainer to look again. */
  function Create(hash: string -> string, d: Daemon, p: Proc, reply: Reply, pick: nat): Option<(Daemon, Pc, seq<Act>)> {
    if reply.Busy? || (reply.Up? && Taken(d, p.name)) then
      Some((d, if p.job.Ensure? then LookingAgain else Stopped(false), []))
    else if !reply.Up? then Some((d, Stopped(false), []))
    else if pick in d.born || pick in d.live then None
    else Some((Daemon(d.live[pick := Container(p.name, false)], d.born[pick := LabelsFor(hash, p)]), Made(p, pick),
               [Act(p.owner, p.job, Created, pick)]))
  }

  function Made(p: Proc, id: nat): Pc {
    if p.job.Service? && p.job.internet then Linking(id) else Launching(id)
  }

  /** Where a failed start of a new container leads: a conflict from it counts as a create conflict. */
  function Unlaunched(p: Proc, id: nat, reply: Reply): Pc {
    if p.job.Service? then Undoing(id) else if p.job.Ensure? && reply.Busy? then LookingAgain else Stopped(false)
  }

  function Start(d: Daemon, p: Proc, id: nat, reply: Reply, done: Pc, failed: Pc): Option<(Daemon, Pc, seq<Act>)> {
    if reply.Up? && id in d.live then Some((SetRunning(d, id), done, [Act(p.owner, p.job, Started, id)]))
    else Some((d, failed, []))
  }

  /** ContainerRemove by id; a container that is already gone is a success. */
  function Erase(d: Daemon, p: Proc, id: nat, up: bool, done: Pc, failed: Pc): Option<(Daemon, Pc, seq<Act>)> {
    if !up then Some((d, failed, []))
    else if id !in d.live then Some((d, done, []))
    else Some((d.(live := d.live - {id}), done, [Act(p.owner, p.job, Deleted, id)]))
  }

  function Moved(d: Daemon, m: Move): Daemon {
    match m
    case Make(id, name, labels, running) =>
      if id in d.born || id in d.live || Taken(d, name) then d
      else Daemon(d.live[id := Container(name, running)], d.born[id := labels.(made := None)])
    case Boot(id) => if id in d.live then SetRunning(d, id) else d
    case Halt(id) => if id in d.live then d.(live := d.live[id := d.live[id].(running := false)]) else d
    case Destroy(id) => d.(live := d.live - {id})
  }

  function Next(hash: string -> string, s: State, e: Event): Option<State> {
    match e
    case Begin(p, owner, name, job) =>
      if p in s.procs then None else Some(s.(procs := s.procs[p := Proc(owner, name, job, Looking)]))
    case Call(p, reply, pick) =>
      if p !in s.procs then None
      else (match CallNext(hash, s.d, s.procs[p], reply, pick)
            case None => None
            case Some(r) =>
              Some(State(r.0, s.procs[p := s.procs[p].(pc := r.1)], s.acts + r.2)))
    case Outsider(m) => Some(s.(d := Moved(s.d, m)))
  }

  function Run(hash: string -> string, s: State, es: seq<Event>): Option<State>
    decreases |es|
  {
    if es == [] then Some(s)
    else match Next(hash, s, es[0])
      case None => None
      case Some(t) => Run(hash, t, es[1..])
  }

  // ---------------------------------------------------------------- ownership

  /** A service's container is started only as built from its own text. */
  ghost predicate BuiltFor(p: Proc, l: Labels) {
    p.job.Service? ==> l.made == Some(p.job.text)
  }

  /** What an operation holding an id knows of that container for good. */
  ghost predicate Knows(hash: string -> string, born: map<nat, Labels>, p: Proc) {
    match p.pc
    case Creating => !p.job.Remove?
    case Pulling => !p.job.Remove?
    case Recreating => !p.job.Remove?
    case LookingAgain => p.job.Ensure?
    case Linking(id) => id in born && MayUse(p.owner, born[id]) && p.job.Service? && BuiltFor(p, born[id])
    case Launching(id) => id in born && MayUse(p.owner, born[id]) && !p.job.Remove? && BuiltFor(p, born[id])
    case Reporting(id) => id in born && MayUse(p.owner, born[id]) && p.job.Service? && BuiltFor(p, born[id])
    case Reported(id, _) => id in born && MayUse(p.owner, born[id]) && p.job.Service? && BuiltFor(p, born[id])
    case Starting(id) => id in born && MayUse(p.owner, born[id]) && !p.job.Remove? && BuiltFor(p, born[id])
    case Returned(id) => id in born && MayUse(p.owner, born[id]) && BuiltFor(p, born[id])
    case Kept(id) =>
      id in born && p.job.Service? && MayUse(p.owner, born[id]) && born[id].spec == hash(p.job.text)
    case Deleting(id) => id in born && p.job.Remove? && born[id].owner == p.owner
    case Replacing(id) => id in born && p.job.Service? && MayUse(p.owner, born[id])
    case Undoing(id) => id in born && p.job.Service? && MayUse(p.owner, born[id])
    case _ => true
  }

  /** What may stand in the record of actions. */
  ghost predicate Proper(born: map<nat, Labels>, a: Act) {
    && a.id in born && MayUse(a.owner, born[a.id])
    && (a.job.Remove? ==> a.deed == Deleted && born[a.id].owner == a.owner)
    && (a.deed == Created ==> born[a.id].owner == a.owner)
  }

  ghost predicate Inv(hash: string -> string, s: State) {
    && s.d.live.Keys <= s.d.born.Keys
    && (forall i, j | i in s.d.live && j in s.d.live && s.d.live[i].name == s.d.live[j].name :: i == j)
    && (forall p | p in s.procs :: Knows(hash, s.d.born, s.procs[p]))
    && (forall k | 0 <= k < |s.acts| :: Proper(s.d.born, s.acts[k]))
    && (forall i | i in s.d.born && s.d.born[i].made.Some? :: s.d.born[i].spec == hash(s.d.born[i].made.value))
  }

  /** Labels stay with their container. */
  ghost predicate Older(b: map<nat, Labels>, c: map<nat, Labels>) {
    b.Keys <= c.Keys && forall i | i in b :: c[i] == b[i]
  }

  lemma CallFacts(hash: string -> string, d: Daemon, p: Proc, reply: Reply, pick: nat)
    requires d.live.Keys <= d.born.Keys && Knows(hash, d.born, p) && CallNext(hash, d, p, reply, pick).Some?
    ensures var (d', pc, acts) := CallNext(hash, d, p, reply, pick).value;
            && Older(d.born, d'.born) && d'.live.Keys <= d'.born.Keys
            && Knows(hash, d'.born, p.(pc := pc))
            && (forall k | 0 <= k < |acts| :: Proper(d'.born, acts[k]))
  {
    if p.pc.Looking? || p.pc.LookingAgain? {
      LookFacts(hash, d, p, reply, pick);
    } else if p.pc.Creating? || p.pc.Recreating? || p.pc.Pulling? {
      CreateFacts(hash, d, p, reply, pick);
    } else {
      HeldFacts(hash, d, p, reply, pick);
    }
  }

  lemma LookFacts(hash: string -> string, d: Daemon, p: Proc, reply: Reply, pick: nat)
    requires d.live.Keys <= d.born.Keys && Knows(hash, d.born, p) && CallNext(hash, d, p, reply, pick).Some?
    requires p.pc.Looking? || p.pc.LookingAgain?
    ensures var (d', pc, acts) := CallNext(hash, d, p, reply, pick).value;
            && Older(d.born, d'.born) && d'.live.Keys <= d'.born.Keys
            && Knows(hash, d'.born, p.(pc := pc))
            && (forall k | 0 <= k < |acts| :: Proper(d'.born, acts[k]))
  {
  }

  lemma CreateFacts(hash: string -> string, d: Daemon, p: Proc, reply: Reply, pick: nat)
    requires d.live.Keys <= d.born.Keys && Knows(hash, d.born, p) && CallNext(hash, d, p, reply, pick).Some?
    requires p.pc.Creating? || p.pc.Recreating? || p.pc.Pulling?
    ensures var (d', pc, acts) := CallNext(hash, d, p, reply, pick).value;
            && Older(d.born, d'.born) && d'.live.Keys <= d'.born.Keys
            && Knows(hash, d'.born, p.(pc := pc))
            && (forall k | 0 <= k < |acts| :: Proper(d'.born, acts[k]))
  {
  }

  /** ... while it holds a container's id. */
  lemma HeldFacts(hash: string -> string, d: Daemon, p: Proc, reply: Reply, pick: nat)
    requires d.live.Keys <= d.born.Keys && Knows(hash, d.born, p) && CallNext(hash, d, p, reply, pick).Some?
    requires !p.pc.Looking? && !p.pc.LookingAgain? && !p.pc.Creating? && !p.pc.Recreating? && !p.pc.Pulling?
    ensures var (d', pc, acts) := CallNext(hash, d, p, reply, pick).value;
            && Older(d.born, d'.born) && d'.live.Keys <= d'.born.Keys
            && Knows(hash, d'.born, p.(pc := pc))
            && (forall k | 0 <= k < |acts| :: Proper(d'.born, acts[k]))
  {
  }

  lemma CallKeepsNames(hash: string -> string, d: Daemon, p: Proc, reply: Reply, pick: nat)
    requires forall i, j | i in d.live && j in d.live && d.live[i].name == d.live[j].name :: i == j
    requires forall i | i in d.born && d.born[i].made.Some? :: d.born[i].spec == hash(d.born[i].made.value)
    requires CallNext(hash, d, p, reply, pick).Some?
    ensures var d' := CallNext(hash, d, p, reply, pick).value.0;
            && (forall i, j | i in d'.live && j in d'.live && d'.live[i].name == d'.live[j].name :: i == j)
            && (forall i | i in d'.born && d'.born[i].made.Some? :: d'.born[i].spec == hash(d'.born[i].made.value))
  {
  }

  lemma OutsiderKeepsInv(hash: string -> string, s: State, m: Move)
    requires Inv(hash, s)
    ensures Inv(hash, s.(d := Moved(s.d, m))) && Older(s.d.born, Moved(s.d, m).born)
  {
    var t := s.(d := Moved(s.d, m));
    forall p | p in t.procs ensures Knows(hash, t.d.born, t.procs[p]) { assert Knows(hash, s.d.born, s.procs[p]); }
    forall k | 0 <= k < |t.acts| ensures Proper(t.d.born, t.acts[k]) { assert Proper(s.d.born, s.acts[k]); }
  }

  lemma NextKeepsInv(hash: string -> string, s: State, e: Event)
    requires Inv(hash, s) && Next(hash, s, e).Some?
    ensures Inv(hash, Next(hash, s, e).value)
    ensures Older(s.d.born, Next(hash, s, e).value.d.born)
  {
    var t := Next(hash, s, e).value;
    match e
    case Begin(_, _, _, _) =>
    case Outsider(m) => OutsiderKeepsInv(hash, s, m);
    case Call(p, reply, pick) =>
      CallFacts(hash, s.d, s.procs[p], reply, pick);
      CallKeepsNames(hash, s.d, s.procs[p], reply, pick);
      OthersStillKnow(hash, s, t, p);
      forall k | 0 <= k < |t.acts| ensures Proper(t.d.born, t.acts[k]) {
        if k < |s.acts| { assert Proper(s.d.born, s.acts[k]); }
      }
  }

  lemma OthersStillKnow(hash: string -> string, s: State, t: State, p: nat)
    requires Inv(hash, s) && Older(s.d.born, t.d.born) && p in t.procs && Knows(hash, t.d.born, t.procs[p])
    requires t.procs.Keys == s.procs.Keys && forall q | q in s.procs && q != p :: t.procs[q] == s.procs[q]
    ensures forall q | q in t.procs :: Knows(hash, t.d.born, t.procs[q])
  {
    forall q | q in t.procs ensures Knows(hash, t.d.born, t.procs[q]) {
      if q != p { assert Knows(hash, s.d.born, s.procs[q]); }
    }
  }

  lemma {:induction false} RunKeepsInv(hash: string -> string, s: State, es: seq<Event>)
    requires Inv(hash, s) && Run(hash, s, es).Some?
    ensures Inv(hash, Run(hash, s, es).value)
    decreases |es|
  {
    if es != [] {
      NextKeepsInv(hash, s, es[0]);
      RunKeepsInv(hash, Next(hash, s, es[0]).value, es[1..]);
    }
  }

  /** Over all interleavings of any number of instances and outsiders: a container id that
      ensureContainer returns carries this instance's owner label or none; whatever Remove deletes
      carries exactly this instance's label; and no instance ever starts, replaces or deletes a
      container that another instance created. */
  lemma OwnersNeverCross(hash: string -> string, es: seq<Event>, s: State)
    requires Run(hash, NO_ONE, es) == Some(s)
    ensures forall p | p in s.procs && s.procs[p].job.Ensure? && s.procs[p].pc.Returned? ::
              && s.procs[p].pc.id in s.d.born
              && s.d.born[s.procs[p].pc.id].owner in {"", s.procs[p].owner}
    ensures forall k | 0 <= k < |s.acts| && s.acts[k].job.Remove? ::
              s.acts[k].id in s.d.born && s.d.born[s.acts[k].id].owner == s.acts[k].owner
    ensures forall j, k | 0 <= j < |s.acts| && 0 <= k < |s.acts|
                       && s.acts[j].deed == Created && s.acts[j].id == s.acts[k].id && s.acts[j].owner != "" ::
              s.acts[j].owner == s.acts[k].owner
  {
    RunKeepsInv(hash, NO_ONE, es);
    forall p | p in s.procs ensures Knows(hash, s.d.born, s.procs[p]) {}
    forall k | 0 <= k < |s.acts| ensures Proper(s.d.born, s.acts[k]) {}
  }

  /** Two spec texts never share a fingerprint. */
  ghost predicate CollisionFree(hash: string -> string) {
    forall a, b :: hash(a) == hash(b) ==> a == b
  }

  /** EnsureService succeeds on a container built from its own spec text: one it made, or one it keeps,
      which no instance built from any other text.  (After making one it reports whatever has the name by
      then.) */
  lemma KeptOnlyForEqualText(hash: string -> string, es: seq<Event>, s: State, p: nat)
    requires CollisionFree(hash) && Run(hash, NO_ONE, es) == Some(s)
    requires p in s.procs && s.procs[p].job.Service? && (s.procs[p].pc.Kept? || s.procs[p].pc.Reported?)
    ensures s.procs[p].pc.id in s.d.born
    ensures s.d.born[s.procs[p].pc.id].made == Some(s.procs[p].job.text)
            || (s.procs[p].pc.Kept? && s.d.born[s.procs[p].pc.id].made == None)
  {
    RunKeepsInv(hash, NO_ONE, es);
    assert Knows(hash, s.d.born, s.procs[p]);
    var made := s.d.born[s.procs[p].pc.id].made;
    if made.Some? && s.procs[p].pc.Kept? {
      assert hash(made.value) == hash(s.procs[p].job.text);
    }
  }

  // ---------------------------------------------------------------- one instance's methods

  /** The moves the others make just before one daemon call, and the reply to it. */
  datatype Turn = Turn(moves: seq<Move>, reply: Reply)

  function AllMoved(d: Daemon, moves: seq<Move>): Daemon {
    if moves == [] then d else Moved(AllMoved(d, moves[..|moves|-1]), moves[|moves|-1])
  }

  predicate Terminal(pc: Pc) {
    pc.Returned? || pc.Kept? || pc.Reported? || pc.Stopped?
  }

  /** The id the daemon answers with: of the container of that name, or of the new one. */
  ghost function Answered(d: Daemon, p: Proc, newId: nat): nat {
    if (p.pc.Looking? || p.pc.LookingAgain? || p.pc.Reporting?) && (exists i: nat :: Named(d, p.name, i)) then
      var i: nat :| Named(d, p.name, i);
      i
    else newId
  }

  /** A daemon does not give out an id twice. */
  function Replied(d: Daemon, p: Proc, reply: Reply, newId: nat): Reply {
    if (p.pc.Creating? || p.pc.Recreating?) && reply.Up? && newId in d.born then Down else reply
  }

  /** One call of an operation alone on the daemon but for the others' moves. */
  ghost function Turned(hash: string -> string, d: Daemon, acts: seq<Act>, p: Proc, turn: Turn, newId: nat): (Daemon,
                        seq<Act>, Pc) {
    var m := AllMoved(d, turn.moves);
    match CallNext(hash, m, p, Replied(m, p, turn.reply, newId), Answered(m, p, newId))
    case None => (m, acts, p.pc)
    case Some(r) => (r.0, acts + r.2, r.1)
  }

  /** An operation from where it stands to its end, one call a turn. */
  ghost function Driven(hash: string -> string, d: Daemon, acts: seq<Act>, p: Proc, turns: seq<Turn>,
                        newId: nat): (Daemon, seq<Act>, Pc)
    decreases |turns|
  {
    if Terminal(p.pc) || turns == [] then (d, acts, p.pc)
    else
      var r := Turned(hash, d, acts, p, turns[0], newId);
      Driven(hash, r.0, r.1, p.(pc := r.2), turns[1..], newId)
  }

  ghost predicate Sound(d: Daemon) {
    && d.live.Keys <= d.born.Keys
    && forall i, j | i in d.live && j in d.live && d.live[i].name == d.live[j].name :: i == j
  }

  lemma MovedKeepsSound(d: Daemon, m: Move)
    requires Sound(d)
    ensures Sound(Moved(d, m)) && Older(d.born, Moved(d, m).born)
  {
  }

  lemma {:induction false} AllMovedKeepsSound(d: Daemon, moves: seq<Move>)
    requires Sound(d)
    ensures Sound(AllMoved(d, moves)) && Older(d.born, AllMoved(d, moves).born)
  {
    if moves != [] {
      AllMovedKeepsSound(d, moves[..|moves|-1]);
      MovedKeepsSound(AllMoved(d, moves[..|moves|-1]), moves[|moves|-1]);
    }
  }

  lemma OneOfName(d: Daemon, name: string, i: nat)
    requires Sound(d) && i in d.live && d.live[i].name == name
    ensures Named(d, name, i) && forall j :: Named(d, name, j) ==> j == i
  {
  }

  // An operation alone is a run of the shared machine, so what holds over all runs holds of it.

  lemma {:induction false} RunApart(hash: string -> string, s: State, a: seq<Event>, b: seq<Event>)
    requires Run(hash, s, a).Some?
    ensures Run(hash, s, a + b) == Run(hash, Run(hash, s, a).value, b)
    decreases |a|
  {
    if a == [] {
      assert a + b == b;
    } else {
      assert (a + b)[1..] == a[1..] + b;
      RunApart(hash, Next(hash, s, a[0]).value, a[1..], b);
    }
  }

  function Outside(moves: seq<Move>): seq<Event> {
    seq(|moves|, i requires 0 <= i < |moves| => Outsider(moves[i]))
  }

  lemma {:induction false} RunMoves(hash: string -> string, s: State, moves: seq<Move>)
    ensures Run(hash, s, Outside(moves)) == Some(s.(d := AllMoved(s.d, moves)))
  {
    if moves != [] {
      var front, last := moves[..|moves|-1], moves[|moves|-1];
      RunMoves(hash, s, front);
      assert Outside(moves) == Outside(front) + [Outsider(last)];
      RunApart(hash, s, Outside(front), [Outsider(last)]);
    }
  }

  lemma TurnIsARun(hash: string -> string, d: Daemon, acts: seq<Act>, p: Proc, turn: Turn, newId: nat)
    returns (es: seq<Event>)
    requires Sound(d) && !Terminal(p.pc)
    ensures var r := Turned(hash, d, acts, p, turn, newId);
            && Run(hash, State(d, map[0 := p], acts), es) == Some(State(r.0, map[0 := p.(pc := r.2)], r.1))
            && Sound(r.0)
  {
    var s, m := State(d, map[0 := p], acts), AllMoved(d, turn.moves);
    var call := Event.Call(0, Replied(m, p, turn.reply, newId), Answered(m, p, newId));
    RunMoves(hash, s, turn.moves);
    AllMovedKeepsSound(d, turn.moves);
    RunApart(hash, s, Outside(turn.moves), [call]);
    CallAnswers(hash, m, p, call.reply, newId);
    es := Outside(turn.moves) + [call];
    var t := s.(d := m);
    assert Next(hash, t, call).Some?;
    assert Run(hash, t, [call]) == Next(hash, t, call);
    assert forall q :: map[0 := p][0 := q] == map[0 := q];
  }

  lemma CallAnswers(hash: string -> string, m: Daemon, p: Proc, reply: Reply, newId: nat)
    requires Sound(m) && !Terminal(p.pc) && (reply.Up? && (p.pc.Creating? || p.pc.Recreating?) ==> newId !in m.born)
    ensures CallNext(hash, m, p, reply, Answered(m, p, newId)).Some?
    ensures Sound(CallNext(hash, m, p, reply, Answered(m, p, newId)).value.0)
  {
    if (p.pc.Looking? || p.pc.LookingAgain? || p.pc.Reporting?) && Taken(m, p.name) {
      var i :| i in m.live && m.live[i].name == p.name;
      OneOfName(m, p.name, i);
    }
  }

  lemma {:induction false} DrivenIsARun(hash: string -> string, d: Daemon, acts: seq<Act>, p: Proc, turns: seq<Turn>,
                                        newId: nat)
      returns (es: seq<Event>)
    requires Sound(d)
    ensures var r := Driven(hash, d, acts, p, turns, newId);
            Run(hash, State(d, map[0 := p], acts), es) == Some(State(r.0, map[0 := p.(pc := r.2)], r.1))
    decreases |turns|
  {
    es := [];
    if !Terminal(p.pc) && turns != [] {
      var r := Turned(hash, d, acts, p, turns[0], newId);
      var first := TurnIsARun(hash, d, acts, p, turns[0], newId);
      var rest := DrivenIsARun(hash, r.0, r.1, p.(pc := r.2), turns[1..], newId);
      RunApart(hash, State(d, map[0 := p], acts), first, rest);
      es := first + rest;
    }
  }

  /** What ensureContainer returns when driven alone carries this instance's label or none, and what
      Remove deleted carried exactly its label; whatever the others did in between. */
  lemma DrivenIsOwned(hash: string -> string, d: Daemon, owner: string, name: string, job: Job, turns: seq<Turn>,
                      newId: nat)
    requires Sound(d) && forall i | i in d.born && d.born[i].made.Some? :: d.born[i].spec == hash(d.born[i].made.value)
    ensures var (e, acts, pc) := Driven(hash, d, [], Proc(owner, name, job, Looking), turns, newId);
            && (job.Ensure? && pc.Returned? ==> pc.id in e.born && e.born[pc.id].owner in {"", owner})
            && (job.Remove? ==> forall k | 0 <= k < |acts| :: acts[k].id in e.born && e.born[acts[k].id].owner == owner)
  {
    var p := Proc(owner, name, job, Looking);
    var s := State(d, map[0 := p], []);
    var es := DrivenIsARun(hash, d, [], p, turns, newId);
    assert Inv(hash, s);
    RunKeepsInv(hash, s, es);
    OnlyOwnActs(hash, d, [], p, turns, newId);
    OwnedEnd(hash, Run(hash, s, es).value, owner);
  }

  lemma OwnedEnd(hash: string -> string, t: State, owner: string)
    requires Inv(hash, t) && 0 in t.procs && t.procs[0].owner == owner
    requires forall k | 0 <= k < |t.acts| :: t.acts[k].owner == owner && t.acts[k].job == t.procs[0].job
    ensures t.procs[0].job.Ensure? && t.procs[0].pc.Returned? ==>
              t.procs[0].pc.id in t.d.born && t.d.born[t.procs[0].pc.id].owner in {"", owner}
    ensures t.procs[0].job.Remove? ==>
              forall k | 0 <= k < |t.acts| :: t.acts[k].id in t.d.born && t.d.born[t.acts[k].id].owner == owner
  {
    assert Knows(hash, t.d.born, t.procs[0]);
    forall k | 0 <= k < |t.acts| ensures Proper(t.d.born, t.acts[k]) {}
  }

  lemma OwnActs(hash: string -> string, m: Daemon, p: Proc)
    ensures forall reply, pick: nat :: CallNext(hash, m, p, reply, pick).Some? ==>
              forall k | 0 <= k < |CallNext(hash, m, p, reply, pick).value.2| ::
                var act := CallNext(hash, m, p, reply, pick).value.2[k];
                act.owner == p.owner && act.job == p.job
  {
  }

  lemma {:induction false} OnlyOwnActs(hash: string -> string, d: Daemon, acts: seq<Act>, p: Proc, turns: seq<Turn>,
                                       newId: nat)
    requires forall k | 0 <= k < |acts| :: acts[k].owner == p.owner && acts[k].job == p.job
    ensures var r := Driven(hash, d, acts, p, turns, newId).1;
            forall k | 0 <= k < |r| :: r[k].owner == p.owner && r[k].job == p.job
    decreases |turns|
  {
    if !Terminal(p.pc) && turns != [] {
      var r := Turned(hash, d, acts, p, turns[0], newId);
      OwnActs(hash, AllMoved(d, turns[0].moves), p);
      var q := p.(pc := r.2);
      assert forall k | 0 <= k < |r.1| :: r.1[k].owner == q.owner && r.1[k].job == q.job;
      OnlyOwnActs(hash, r.0, r.1, q, turns[1..], newId);
      assert Driven(hash, d, acts, p, turns, newId) == Driven(hash, r.0, r.1, q, turns[1..], newId);
    }
  }

  datatype Answer<+T> = Ok(value: T) | NotFound | Conflict | Fault

  /** Where a create leads, by its answer. */
  function AfterCreate(p: Proc, r: Answer<nat>): Pc {
    match r
    case Ok(id) => Made(p, id)
    case NotFound => Pulling
    case Conflict => if p.job.Ensure? then LookingAgain else Stopped(false)
    case Fault => Stopped(false)
  }

  function AfterStart(p: Proc, ok: bool, reply: Reply): Pc
    requires p.pc.Starting? || p.pc.Launching?
  {
    if p.pc.Starting? then (if ok then Returned(p.pc.id) else Stopped(false))
    else if ok then (if p.job.Service? then Reporting(p.pc.id) else Returned(p.pc.id))
    else Unlaunched(p, p.pc.id, reply)
  }

  /** The three calls that remove a container. */
  lemma Erases(hash: string -> string, d: Daemon, p: Proc, id: nat, reply: Reply, pick: nat, done: Pc)
    requires (p.pc == Deleting(id) && done == Stopped(true)) || (p.pc == Replacing(id) && done == Creating)
             || (p.pc == Undoing(id) && done == Stopped(false))
    ensures CallNext(hash, d, p, reply, pick) == Erase(d, p, id, reply.Up?, done, Stopped(false))
  {
  }

  /** One instance talking to the daemon; `acts` records what it did there. */
  class Docker {
    const owner: string
    const hash: string -> string
    var d: Daemon
    var acts: seq<Act>

    constructor (owner: string, hash: string -> string, d: Daemon)
      ensures this.owner == owner && this.hash == hash && this.d == d && acts == []
    {
      this.owner, this.hash, this.d, acts := owner, hash, d, [];
    }

    method Others(moves: seq<Move>)
      requires Sound(d)
      modifies this`d
      ensures Sound(d) && d == AllMoved(old(d), moves)
    {
      AllMovedKeepsSound(d, moves);
      for k := 0 to |moves|
        invariant d == AllMoved(old(d), moves[..k])
      {
        assert moves[..k+1][..k] == moves[..k];
        d := Moved(d, moves[k]);
      }
      assert moves[..|moves|] == moves;
    }

    method Inspect(p: Proc, turn: Turn, ghost newId: nat) returns (r: Answer<Found>)
      requires Sound(d) && (p.pc.Looking? || p.pc.LookingAgain?)
      modifies this`d
      ensures Sound(d) && !r.Conflict?
      ensures Turned(hash, old(d), acts, p, turn, newId)
              == (d, acts, if r.Ok? then Seen(hash, p, r.value) else if r.NotFound? then Unseen(p) else Stopped(false))
    {
      Others(turn.moves);
      assert acts + [] == acts;
      if !turn.reply.Up? { return Fault; }
      if !Taken(d, p.name) { return NotFound; }
      var i :| i in d.live && d.live[i].name == p.name;
      OneOfName(d, p.name, i);
      r := Ok(Found(i, d.born[i], d.live[i].running));
    }

    /** ContainerCreate, labelled for this instance; `newId` is the id the daemon gives. */
    method TryCreate(p: Proc, newId: nat, turn: Turn) returns (r: Answer<nat>)
      requires Sound(d) && p.owner == owner && (p.pc.Creating? || p.pc.Recreating?)
      modifies this`d, this`acts
      ensures Sound(d) && r in {Ok(newId), NotFound, Conflict, Fault}
      ensures Turned(hash, old(d), old(acts), p, turn, newId) == (d, acts, AfterCreate(p, r))
      ensures r.NotFound? ==> p.pc.Creating?
    {
      Others(turn.moves);
      assert acts + [] == acts;
      if turn.reply.Missing? { return if p.pc.Creating? then NotFound else Fault; }
      if turn.reply.Busy? { return Conflict; }
      if turn.reply.Down? || newId in d.born { return Fault; }
      if Taken(d, p.name) { return Conflict; }
      d := Daemon(d.live[newId := Container(p.name, false)], d.born[newId := LabelsFor(hash, p)]);
      acts := acts + [Act(owner, p.job, Created, newId)];
      r := Ok(newId);
    }

    /** ContainerCreate, with one pull and one more try when the image is missing. */
    method CreateContainer(p: Proc, newId: nat, turns: seq<Turn>) returns (r: Answer<nat>, rest: seq<Turn>)
      requires Sound(d) && p.owner == owner && p.pc.Creating? && |turns| >= 3
      modifies this`d, this`acts
      ensures Sound(d) && r in {Ok(newId), Conflict, Fault} && |rest| >= |turns| - 3
      ensures Driven(hash, old(d), old(acts), p, turns, newId)
              == Driven(hash, d, acts, p.(pc := AfterCreate(p, r)), rest, newId)
    {
      ghost var all := Driven(hash, d, acts, p, turns, newId);
      r := TryCreate(p, newId, turns[0]);
      rest := turns[1..];
      if r.NotFound? {
        assert all == Driven(hash, d, acts, p.(pc := Pulling), rest, newId);
        var pulled := PullImage(p.(pc := Pulling), rest[0], newId);
        rest := rest[1..];
        if !pulled {
          return Fault, rest;
        }
        assert all == Driven(hash, d, acts, p.(pc := Recreating), rest, newId);
        r := TryCreate(p.(pc := Recreating), newId, rest[0]);
        rest := rest[1..];
      }
    }

    method PullImage(p: Proc, turn: Turn, ghost newId: nat) returns (ok: bool)
      requires Sound(d) && p.pc.Pulling?
      modifies this`d
      ensures Sound(d)
      ensures Turned(hash, old(d), acts, p, turn, newId) == (d, acts, if ok then Recreating else Stopped(false))
    {
      Others(turn.moves);
      assert acts + [] == acts;
      ok := turn.reply.Up?;
    }

    /** NetworkConnect of a service's container to the internet. */
    method Connect(p: Proc, turn: Turn, ghost newId: nat) returns (ok: bool)
      requires Sound(d) && p.owner == owner && p.pc.Linking?
      modifies this`d, this`acts
      ensures Sound(d)
      ensures Turned(hash, old(d), old(acts), p, turn, newId)
              == (d, acts, if ok then Launching(p.pc.id) else Undoing(p.pc.id))
    {
      Others(turn.moves);
      assert acts + [] == acts;
      ok := turn.reply.Up? && p.pc.id in d.live;
      if ok {
        acts := acts + [Act(owner, p.job, Linked, p.pc.id)];
      }
    }

    method StartContainer(p: Proc, turn: Turn, ghost newId: nat) returns (ok: bool)
      requires Sound(d) && p.owner == owner && (p.pc.Starting? || p.pc.Launching?)
      modifies this`d, this`acts
      ensures Sound(d)
      ensures Turned(hash, old(d), old(acts), p, turn, newId) == (d, acts, AfterStart(p, ok, turn.reply))
    {
      Others(turn.moves);
      assert acts + [] == acts;
      ok := turn.reply.Up? && p.pc.id in d.live;
      if ok {
        d := SetRunning(d, p.pc.id);
        acts := acts + [Act(owner, p.job, Started, p.pc.id)];
      }
    }

    /** ContainerRemove of an inspected or just created id; `done` is where a success leads. */
    method RemoveContainer(p: Proc, id: nat, turn: Turn, ghost newId: nat, ghost done: Pc) returns (ok: bool)
      requires Sound(d) && p.owner == owner
      requires (p.pc == Deleting(id) && done == Stopped(true)) || (p.pc == Replacing(id) && done == Creating)
               || (p.pc == Undoing(id) && done == Stopped(false))
      modifies this`d, this`acts
      ensures Sound(d) && ok == turn.reply.Up?
      ensures Turned(hash, old(d), old(acts), p, turn, newId) == (d, acts, if ok then done else Stopped(false))
    {
      Others(turn.moves);
      Erases(hash, d, p, id, Replied(d, p, turn.reply, newId), Answered(d, p, newId), done);
      assert acts + [] == acts;
      ok := turn.reply.Up?;
      if ok && id in d.live {
        d := d.(live := d.live - {id});
        acts := acts + [Act(owner, p.job, Deleted, id)];
      }
    }

    method CheckOwner(labels: Labels) returns (ok: bool)
      ensures ok == MayUse(owner, labels)
    {
      ok := labels.owner == "" || labels.owner == owner;
    }

    /** What ensureContainer does with the container it found: check its owner, start it if it is stopped. */
    method Use(p: Proc, f: Found, turns: seq<Turn>, ghost newId: nat) returns (r: Option<nat>)
      requires Sound(d) && p.owner == owner && p.job.Ensure? && turns != []
      modifies this`d, this`acts
      ensures Sound(d)
      ensures Driven(hash, old(d), old(acts), p.(pc := Seen(hash, p, f)), turns, newId)
              == (d, acts, if r.Some? then Returned(r.value) else Stopped(false))
    {
      var mine := CheckOwner(f.labels);
      if !mine {
        return None;
      }
      if !f.running {
        var started := StartContainer(p.(pc := Starting(f.id)), turns[0], newId);
        if !started {
          return None;
        }
      }
      r := Some(f.id);
    }

    /** Inspect by name once more, and use whatever is there now. */
    method LookAgain(p: Proc, turns: seq<Turn>, ghost newId: nat) returns (r: Option<nat>)
      requires Sound(d) && p.owner == owner && p.job.Ensure? && p.pc.LookingAgain? && |turns| >= 2
      modifies this`d, this`acts
      ensures Sound(d)
      ensures Driven(hash, old(d), old(acts), p, turns, newId)
              == (d, acts, if r.Some? then Returned(r.value) else Stopped(false))
    {
      ghost var all := Driven(hash, d, acts, p, turns, newId);
      var insp := Inspect(p, turns[0], newId);
      var rest := turns[1..];
      if !insp.Ok? {
        assert all == Driven(hash, d, acts, p.(pc := Stopped(false)), rest, newId);
        return None;
      }
      assert all == Driven(hash, d, acts, p.(pc := Seen(hash, p, insp.value)), rest, newId);
      r := Use(p, insp.value, rest, newId);
    }

    /** createContainer and what a conflict anywhere in it leads to. */
    method CreateOrLook(p: Proc, newId: nat, turns: seq<Turn>) returns (r: Option<nat>)
      requires Sound(d) && p.owner == owner && p.job.Ensure? && p.pc.Creating? && |turns| >= 6
      modifies this`d, this`acts
      ensures Sound(d)
      ensures Driven(hash, old(d), old(acts), p, turns, newId)
              == (d, acts, if r.Some? then Returned(r.value) else Stopped(false))
    {
      ghost var all := Driven(hash, d, acts, p, turns, newId);
      var created, rest := CreateContainer(p, newId, turns);
      if created.Ok? {
        var q := p.(pc := Launching(newId));
        var reply := rest[0].reply;
        var started := StartContainer(q, rest[0], newId);
        rest := rest[1..];
        assert all == Driven(hash, d, acts, p.(pc := AfterStart(q, started, reply)), rest, newId);
        if started {
          return Some(newId);
        }
        if !reply.Busy? {
          return None;
        }
      } else if !created.Conflict? {
        return None;
      }
      assert all == Driven(hash, d, acts, p.(pc := LookingAgain), rest, newId);
      r := LookAgain(p.(pc := LookingAgain), rest, newId);
    }

    /** ensureContainer, once the workdir has been accepted. */
    method EnsureContainer(name: string, newId: nat, turns: seq<Turn>) returns (r: Option<nat>)
      requires Sound(d) && |turns| == 7
      modifies this`d, this`acts
      ensures Sound(d)
      ensures Driven(hash, old(d), old(acts), Proc(owner, name, Ensure, Looking), turns, newId)
              == (d, acts, if r.Some? then Returned(r.value) else Stopped(false))
    {
      var p := Proc(owner, name, Ensure, Looking);
      ghost var all := Driven(hash, d, acts, p, turns, newId);
      var rest := turns[1..];
      var insp := Inspect(p, turns[0], newId);
      if insp.Ok? {
        assert all == Driven(hash, d, acts, p.(pc := Seen(hash, p, insp.value)), rest, newId);
        r := Use(p, insp.value, rest, newId);
      } else if insp.NotFound? {
        assert all == Driven(hash, d, acts, p.(pc := Creating), rest, newId);
        r := CreateOrLook(p.(pc := Creating), newId, rest);
      } else {
        r := None;
      }
    }

    /** Remove acts on the inspected id, and only on this instance's label. */
    method Remove(name: string, ghost newId: nat, turns: seq<Turn>) returns (ok: bool)
      requires Sound(d) && |turns| == 2
      modifies this`d, this`acts
      ensures Sound(d)
      ensures Driven(hash, old(d), old(acts), Proc(owner, name, Job.Remove, Looking), turns, newId)
              == (d, acts, Stopped(ok))
    {
      var p := Proc(owner, name, Job.Remove, Looking);
      ghost var all := Driven(hash, d, acts, p, turns, newId);
      var insp := Inspect(p, turns[0], newId);
      if !insp.Ok? {
        return insp.NotFound?;
      }
      if insp.value.labels.owner != owner {
        return true;
      }
      p := p.(pc := Deleting(insp.value.id));
      assert all == Driven(hash, d, acts, p, turns[1..], newId);
      ok := RemoveContainer(p, insp.value.id, turns[1..][0], newId, Stopped(true));
      assert all == Driven(hash, d, acts, p.(pc := Stopped(ok)), turns[1..][1..], newId);
    }

    /** What could not be connected or started is removed again, as well as that goes. */
    method Undo(p: Proc, id: nat, turns: seq<Turn>, ghost newId: nat)
      requires Sound(d) && p.owner == owner && p.pc == Undoing(id) && turns != []
      modifies this`d, this`acts
      ensures Sound(d)
      ensures Driven(hash, old(d), old(acts), p, turns, newId) == (d, acts, Stopped(false))
    {
      ghost var all := Driven(hash, d, acts, p, turns, newId);
      var gone := RemoveContainer(p, id, turns[0], newId, Stopped(false));
      assert all == Driven(hash, d, acts, p.(pc := Stopped(false)), turns[1..], newId);
    }

    /** createService; when it fails there is nothing left to do. */
    method CreateService(p: Proc, newId: nat, turns: seq<Turn>) returns (ok: bool, rest: seq<Turn>)
      requires Sound(d) && p.owner == owner && p.job.Service? && p.pc.Creating? && |turns| >= 6
      modifies this`d, this`acts
      ensures Sound(d) && |rest| >= |turns| - 5
      ensures Driven(hash, old(d), old(acts), p, turns, newId)
              == if ok then Driven(hash, d, acts, p.(pc := Reporting(newId)), rest, newId)
                 else (d, acts, Stopped(false))
    {
      ghost var all := Driven(hash, d, acts, p, turns, newId);
      var created: Answer<nat>;
      created, rest := CreateContainer(p, newId, turns);
      if !created.Ok? {
        return false, rest;
      }
      if p.job.internet {
        assert all == Driven(hash, d, acts, p.(pc := Linking(newId)), rest, newId);
        var connected := Connect(p.(pc := Linking(newId)), rest[0], newId);
        rest := rest[1..];
        if !connected {
          assert all == Driven(hash, d, acts, p.(pc := Undoing(newId)), rest, newId);
          Undo(p.(pc := Undoing(newId)), newId, rest, newId);
          return false, rest;
        }
      }
      assert all == Driven(hash, d, acts, p.(pc := Launching(newId)), rest, newId);
      var started := StartContainer(p.(pc := Launching(newId)), rest[0], newId);
      rest := rest[1..];
      if !started {
        assert all == Driven(hash, d, acts, p.(pc := Undoing(newId)), rest, newId);
        Undo(p.(pc := Undoing(newId)), newId, rest, newId);
        return false, rest;
      }
      ok := true;
    }

    /** The closing ContainerInspect(name). */
    method Report(p: Proc, id: nat, turns: seq<Turn>, ghost newId: nat) returns (shown: Option<nat>)
      requires Sound(d) && p.pc == Reporting(id) && turns != []
      modifies this`d
      ensures Sound(d)
      ensures Driven(hash, old(d), acts, p, turns, newId)
              == (d, acts, if shown.Some? then Reported(id, shown.value) else Stopped(false))
    {
      ghost var all := Driven(hash, d, acts, p, turns, newId);
      Others(turns[0].moves);
      assert acts + [] == acts;
      if turns[0].reply.Up? && Taken(d, p.name) {
        var i :| i in d.live && d.live[i].name == p.name;
        OneOfName(d, p.name, i);
        shown := Some(i);
        assert all == Driven(hash, d, acts, p.(pc := Reported(id, i)), turns[1..], newId);
      } else {
        shown := None;
        assert all == Driven(hash, d, acts, p.(pc := Stopped(false)), turns[1..], newId);
      }
    }

    method MakeService(p: Proc, newId: nat, turns: seq<Turn>) returns (r: Option<nat>)
      requires Sound(d) && p.owner == owner && p.job.Service? && p.pc.Creating? && |turns| >= 6
      modifies this`d, this`acts
      ensures Sound(d)
      ensures Driven(hash, old(d), old(acts), p, turns, newId)
              == (d, acts, if r.Some? then Reported(newId, r.value) else Stopped(false))
    {
      var made, rest := CreateService(p, newId, turns);
      if !made {
        return None;
      }
      r := Report(p.(pc := Reporting(newId)), newId, rest, newId);
    }

    /** EnsureService for a spec whose text is `text`: the id whose status it reports, if it succeeds. */
    method EnsureService(name: string, text: string, internet: bool, newId: nat, turns: seq<Turn>)
      returns (r: Option<nat>)
      requires Sound(d) && |turns| == 8
      modifies this`d, this`acts
      ensures Sound(d)
      ensures var run :=
                Driven(hash, old(d), old(acts), Proc(owner, name, Service(text, internet), Looking), turns, newId);
              && (d, acts) == (run.0, run.1)
              && if r.Some? then run.2 in {Kept(r.value), Reported(newId, r.value)} else run.2 == Stopped(false)
    {
      var p := Proc(owner, name, Service(text, internet), Looking);
      ghost var all := Driven(hash, d, acts, p, turns, newId);
      var rest := turns[1..];
      var insp := Inspect(p, turns[0], newId);
      if insp.Fault? {
        return None;
      }
      if insp.Ok? {
        var mine := CheckOwner(insp.value.labels);
        if !mine {
          return None;
        }
        if insp.value.labels.spec == hash(text) && insp.value.running {
          return Some(insp.value.id);
        }
        p := p.(pc := Replacing(insp.value.id));
        assert all == Driven(hash, d, acts, p, rest, newId);
        var gone := RemoveContainer(p, insp.value.id, rest[0], newId, Creating);
        rest := rest[1..];
        if !gone {
          assert all == Driven(hash, d, acts, p.(pc := Stopped(false)), rest, newId);
          return None;
        }
      }
      p := p.(pc := Creating);
      assert all == Driven(hash, d, acts, p, rest, newId);
      r := MakeService(p, newId, rest);
    }
  }
}
