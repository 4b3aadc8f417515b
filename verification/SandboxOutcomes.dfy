/** What the operations of Sandbox leave behind: that a returned container runs, that a service was
    connected, that a removal removed (internal/sandboxd/docker.go, internal/sandboxd/services.go). */
module SandboxOutcomes {
  import opened Options
  import opened Sandbox

  // ---------------------------------------------------------------- over all interleavings

  /** While it lives, the container an operation is working on has the name that was asked for. */
  ghost predicate NamedRight(d: Daemon, p: Proc) {
    match p.pc
    case Linking(id) => id in d.live ==> d.live[id].name == p.name
    case Launching(id) => id in d.live ==> d.live[id].name == p.name
    case Starting(id) => id in d.live ==> d.live[id].name == p.name
    case _ => true
  }

  ghost predicate Connected(acts: seq<Act>, p: Proc, id: nat) {
    p.job.Service? && p.job.internet ==> Act(p.owner, p.job, Linked, id) in acts
  }

  ghost predicate MadeByIt(acts: seq<Act>, p: Proc, id: nat) {
    && Act(p.owner, p.job, Created, id) in acts && Connected(acts, p, id)
    && Act(p.owner, p.job, Started, id) in acts
  }

  /** What the record shows of a container that an operation made itself. */
  ghost predicate OnRecord(acts: seq<Act>, p: Proc) {
    match p.pc
    case Linking(id) => p.job.Service? && p.job.internet && Act(p.owner, p.job, Created, id) in acts
    case Launching(id) => Act(p.owner, p.job, Created, id) in acts && Connected(acts, p, id)
    case Reporting(id) => MadeByIt(acts, p, id)
    case Reported(id, _) => MadeByIt(acts, p, id)
    case _ => true
  }

  ghost predicate InternetOnly(a: Act) {
    a.deed == Linked ==> a.job.Service? && a.job.internet
  }

  ghost predicate Recorded(s: State) {
    && (forall p | p in s.procs :: NamedRight(s.d, s.procs[p]) && OnRecord(s.acts, s.procs[p]))
    && (forall k | 0 <= k < |s.acts| :: InternetOnly(s.acts[k]))
  }

  /** A container keeps its name as long as it lives. */
  ghost predicate NamesStay(d: Daemon, e: Daemon) {
    forall i | i in e.live && i in d.born :: i in d.live && e.live[i].name == d.live[i].name
  }

  lemma CallKeeps(hash: string -> string, d: Daemon, acts: seq<Act>, p: Proc, reply: Reply, pick: nat)
    requires d.live.Keys <= d.born.Keys && Knows(hash, d.born, p) && NamedRight(d, p) && OnRecord(acts, p)
    requires CallNext(hash, d, p, reply, pick).Some?
    ensures var (e, pc, more) := CallNext(hash, d, p, reply, pick).value;
            && NamesStay(d, e) && NamedRight(e, p.(pc := pc)) && OnRecord(acts + more, p.(pc := pc))
            && (forall k | 0 <= k < |more| :: InternetOnly(more[k]))
  {
  }

  lemma NextKeeps(hash: string -> string, s: State, e: Event)
    requires Inv(hash, s) && Recorded(s) && Next(hash, s, e).Some?
    ensures Recorded(Next(hash, s, e).value)
  {
    match e
    case Begin(_, _, _, _) =>
    case Outsider(m) => OutsiderRecords(hash, s, m);
    case Call(p, reply, pick) => CallRecords(hash, s, p, reply, pick);
  }

  lemma OutsiderRecords(hash: string -> string, s: State, m: Move)
    requires Inv(hash, s) && Recorded(s)
    ensures Recorded(s.(d := Moved(s.d, m)))
  {
    MovesKeepNames(s.d, m);
    OthersKept(hash, s, s.(d := Moved(s.d, m)));
  }

  lemma MovesKeepNames(d: Daemon, m: Move)
    ensures NamesStay(d, Moved(d, m))
  {
  }

  lemma CallRecords(hash: string -> string, s: State, p: nat, reply: Reply, pick: nat)
    requires Inv(hash, s) && Recorded(s) && Next(hash, s, Call(p, reply, pick)).Some?
    ensures Recorded(Next(hash, s, Call(p, reply, pick)).value)
  {
    var t := Next(hash, s, Call(p, reply, pick)).value;
    CallKeeps(hash, s.d, s.acts, s.procs[p], reply, pick);
    OthersKept(hash, s, t);
    forall q | q in t.procs ensures NamedRight(t.d, t.procs[q]) && OnRecord(t.acts, t.procs[q]) {
      if q != p { assert t.procs[q] == s.procs[q]; }
    }
  }

  lemma OthersKept(hash: string -> string, s: State, t: State)
    requires Inv(hash, s) && Recorded(s)
    requires NamesStay(s.d, t.d) && |s.acts| <= |t.acts| && t.acts[..|s.acts|] == s.acts
    ensures forall p | p in s.procs :: NamedRight(t.d, s.procs[p]) && OnRecord(t.acts, s.procs[p])
  {
    forall p | p in s.procs ensures NamedRight(t.d, s.procs[p]) && OnRecord(t.acts, s.procs[p]) {
      StillKept(hash, s, t, s.procs[p]);
    }
  }

  lemma StillKept(hash: string -> string, s: State, t: State, p: Proc)
    requires NamedRight(s.d, p) && OnRecord(s.acts, p) && Knows(hash, s.d.born, p)
    requires NamesStay(s.d, t.d) && |s.acts| <= |t.acts| && t.acts[..|s.acts|] == s.acts
    ensures NamedRight(t.d, p) && OnRecord(t.acts, p)
  {
    assert forall a | a in s.acts :: a in t.acts[..|s.acts|];
  }

  lemma {:induction false} RunKeeps(hash: string -> string, s: State, es: seq<Event>)
    requires Inv(hash, s) && Recorded(s) && Run(hash, s, es).Some?
    ensures Inv(hash, Run(hash, s, es).value) && Recorded(Run(hash, s, es).value)
    decreases |es|
  {
    if es != [] {
      NextKeepsInv(hash, s, es[0]);
      NextKeeps(hash, s, es[0]);
      RunKeeps(hash, Next(hash, s, es[0]).value, es[1..]);
    }
  }

  /** Whatever the others do, the container ensureContainer returns is running under the mission's name at
      that moment; and it ran already or this very call started it. */
  lemma ReturnedIsRunning(hash: string -> string, es: seq<Event>, s: State, p: nat, reply: Reply, pick: nat, t: State)
    requires Run(hash, NO_ONE, es) == Some(s) && Next(hash, s, Call(p, reply, pick)) == Some(t)
    requires t.procs[p].job.Ensure? && t.procs[p].pc.Returned?
    ensures var q, id := t.procs[p], t.procs[p].pc.id;
            && id in t.d.live && t.d.live[id] == Container(q.name, true)
            && (t == s.(procs := t.procs) || t.acts == s.acts + [Act(q.owner, Ensure, Started, id)])
  {
    RunKeeps(hash, NO_ONE, es);
    assert NamedRight(s.d, s.procs[p]) && Knows(hash, s.d.born, s.procs[p]);
  }

  /** The only ways a Remove reports success: there was no container of that name, or one that is not this
      instance's, or the one it inspected is gone. */
  lemma RemovedOrNotMine(hash: string -> string, es: seq<Event>, s: State, p: nat, reply: Reply, pick: nat, t: State)
    requires Run(hash, NO_ONE, es) == Some(s) && Next(hash, s, Call(p, reply, pick)) == Some(t)
    requires t.procs[p].job.Remove? && t.procs[p].pc.Stopped?
    ensures t.procs[p].pc.ok == reply.Up?
    ensures reply.Up? ==>
              var q := s.procs[p];
              || !Taken(t.d, q.name)
              || (Named(t.d, q.name, pick) && t.d.born[pick].owner != q.owner)
              || (q.pc.Deleting? && q.pc.id in s.d.born && s.d.born[q.pc.id].owner == q.owner && q.pc.id !in t.d.live)
  {
    RunKeeps(hash, NO_ONE, es);
    assert Knows(hash, s.d.born, s.procs[p]);
  }

  /** A service that was made was created, connected to the internet first if and only if its spec asks for
      that, and started, all by this operation. */
  lemma ServiceWasMade(hash: string -> string, es: seq<Event>, s: State, p: nat)
    requires Run(hash, NO_ONE, es) == Some(s) && p in s.procs && s.procs[p].pc.Reported?
    ensures var q, id := s.procs[p], s.procs[p].pc.id;
            && q.job.Service?
            && Act(q.owner, q.job, Created, id) in s.acts && Act(q.owner, q.job, Started, id) in s.acts
            && (Act(q.owner, q.job, Linked, id) in s.acts <==> q.job.internet)
  {
    RunKeeps(hash, NO_ONE, es);
    assert OnRecord(s.acts, s.procs[p]) && Knows(hash, s.d.born, s.procs[p]);
    forall k | 0 <= k < |s.acts| ensures InternetOnly(s.acts[k]) {}
  }

  /** A service that was kept was running as that spec when it was looked at, and nothing was done to it. */
  lemma KeptIsRunning(hash: string -> string, s: State, p: nat, reply: Reply, pick: nat, t: State)
    requires Next(hash, s, Call(p, reply, pick)) == Some(t)
    requires t.procs[p].pc.Kept?
    ensures var q := t.procs[p];
            && t == s.(procs := t.procs)
            && q.job.Service? && q.pc.id == pick && Named(s.d, q.name, pick)
            && s.d.live[pick].running && s.d.born[pick].spec == hash(q.job.text)
            && s.d.born[pick].owner in {"", q.owner}
  {
  }

  /** A call that fails changes nothing and ends its operation as failed; but a missing image is pulled, a
      conflict in making a mission's container leads to another look, and a service's container that was made
      is taken away again. */
  lemma FailureShows(hash: string -> string, s: State, p: nat, reply: Reply, pick: nat, t: State)
    requires !reply.Up? && Next(hash, s, Call(p, reply, pick)) == Some(t)
    ensures t == s.(procs := t.procs)
    ensures var q := s.procs[p];
            t.procs[p].pc == match q.pc
                             case Creating => if reply.Missing? then Pulling else Conflicted(q, reply)
                             case Recreating => Conflicted(q, reply)
                             case Linking(id) => Undoing(id)
                             case Launching(id) => if q.job.Service? then Undoing(id) else Conflicted(q, reply)
                             case _ => Stopped(false)
  {
  }

  function Conflicted(p: Proc, reply: Reply): Pc {
    if p.job.Ensure? && reply.Busy? then LookingAgain else Stopped(false)
  }

  /** The most calls an operation can still make. */
  function CallsLeft(p: Proc): nat {
    match p.job
    case Remove =>
      (match p.pc case Looking => 2 case Deleting(_) => 1 case _ => 0)
    case Ensure =>
      (match p.pc
       case Looking => 7
       case Creating => 6
       case Pulling => 5
       case Recreating => 4
       case Launching(_) => 3
       case LookingAgain => 2
       case Starting(_) => 1
       case _ => 0)
    case Service(_, _) =>
      match p.pc
      case Looking => 8
      case Replacing(_) => 7
      case Creating => 6
      case Pulling => 5
      case Recreating => 4
      case Linking(_) => 3
      case Launching(_) => 2
      case Reporting(_) => 1
      case Undoing(_) => 1
      case _ => 0
  }

  lemma EachCallCounts(hash: string -> string, d: Daemon, p: Proc, reply: Reply, pick: nat)
    requires CallsLeft(p) > 0 && CallNext(hash, d, p, reply, pick).Some?
    ensures var q := p.(pc := CallNext(hash, d, p, reply, pick).value.1);
            CallsLeft(q) < CallsLeft(p) && (CallsLeft(q) > 0 || Terminal(q.pc))
  {
  }

  lemma {:induction false} DrivenEnds(hash: string -> string, d: Daemon, acts: seq<Act>, p: Proc, turns: seq<Turn>,
                                      newId: nat)
    requires Sound(d) && (CallsLeft(p) > 0 || Terminal(p.pc)) && |turns| >= CallsLeft(p)
    ensures Terminal(Driven(hash, d, acts, p, turns, newId).2)
    decreases |turns|
  {
    if !Terminal(p.pc) && turns != [] {
      var m, r := AllMoved(d, turns[0].moves), Turned(hash, d, acts, p, turns[0], newId);
      AllMovedKeepsSound(d, turns[0].moves);
      CallAnswers(hash, m, p, Replied(m, p, turns[0].reply, newId), newId);
      EachCallCounts(hash, m, p, Replied(m, p, turns[0].reply, newId), Answered(m, p, newId));
      DrivenEnds(hash, r.0, r.1, p.(pc := r.2), turns[1..], newId);
    }
  }

  /** Whatever the daemon answers and the others do, ensureContainer is over after seven calls, Remove after two,
      EnsureService after eight: nothing is tried over and over. */
  lemma EveryOperationEnds(hash: string -> string, d: Daemon, owner: string, name: string, job: Job, turns: seq<Turn>,
                           newId: nat)
    requires Sound(d) && |turns| >= match job case Ensure => 7 case Remove => 2 case Service(_, _) => 8
    ensures Terminal(Driven(hash, d, [], Proc(owner, name, job, Looking), turns, newId).2)
  {
    DrivenEnds(hash, d, [], Proc(owner, name, job, Looking), turns, newId);
  }

  // ---------------------------------------------------------------- an operation undisturbed

  /** Nobody else touches the daemon meanwhile. */
  ghost predicate Calm(turns: seq<Turn>) {
    forall k | 0 <= k < |turns| :: turns[k].moves == []
  }

  /** ... and every call works. */
  ghost predicate Smooth(turns: seq<Turn>) {
    Calm(turns) && forall k | 0 <= k < |turns| :: turns[k].reply == Up
  }

  lemma OneCall(hash: string -> string, d: Daemon, acts: seq<Act>, p: Proc, turns: seq<Turn>, newId: nat)
    requires Sound(d) && turns != [] && turns[0].moves == [] && !Terminal(p.pc)
    ensures var r := CallNext(hash, d, p, Replied(d, p, turns[0].reply, newId), Answered(d, p, newId));
            && r.Some? && Sound(r.value.0)
            && Driven(hash, d, acts, p, turns, newId)
               == Driven(hash, r.value.0, if r.value.2 == [] then acts else acts + r.value.2, p.(pc := r.value.1),
                         turns[1..], newId)
  {
    CallAnswers(hash, d, p, Replied(d, p, turns[0].reply, newId), newId);
    assert AllMoved(d, turns[0].moves) == d;
    assert acts + [] == acts;
  }

  // Each call, where it works or is answered as named.

  lemma Looks(hash: string -> string, d: Daemon, acts: seq<Act>, p: Proc, turns: seq<Turn>, i: nat, newId: nat)
    requires Sound(d) && turns != [] && turns[0] == Turn([], Up)
    requires p.pc.Looking? || p.pc.LookingAgain?
    requires Named(d, p.name, i)
    ensures Driven(hash, d, acts, p, turns, newId)
            == Driven(hash, d, acts, p.(pc := Seen(hash, p, Found(i, d.born[i], d.live[i].running))), turns[1..], newId)
  {
    OneCall(hash, d, acts, p, turns, newId);
    OneOfName(d, p.name, i);
    assert Answered(d, p, newId) == i;
  }

  lemma FindsNone(hash: string -> string, d: Daemon, acts: seq<Act>, p: Proc, turns: seq<Turn>, newId: nat)
    requires Sound(d) && turns != [] && turns[0] == Turn([], Up) && p.pc.Looking? && !Taken(d, p.name)
    ensures Driven(hash, d, acts, p, turns, newId)
            == Driven(hash, d, acts, p.(pc := if p.job.Remove? then Stopped(true) else Creating), turns[1..], newId)
  {
    OneCall(hash, d, acts, p, turns, newId);
  }

  function Fresh(hash: string -> string, d: Daemon, p: Proc, id: nat, running: bool): Daemon {
    Daemon(d.live[id := Container(p.name, running)],
           d.born[id := if p.job.Service? then Labels(p.owner, hash(p.job.text), Some(p.job.text))
                        else Labels(p.owner, "", None)])
  }

  lemma Creates(hash: string -> string, d: Daemon, acts: seq<Act>, p: Proc, turns: seq<Turn>, newId: nat)
    requires Sound(d) && turns != [] && turns[0] == Turn([], Up) && (p.pc.Creating? || p.pc.Recreating?)
    requires !Taken(d, p.name) && newId !in d.born
    ensures Sound(Fresh(hash, d, p, newId, false))
    ensures Driven(hash, d, acts, p, turns, newId)
            == Driven(hash, Fresh(hash, d, p, newId, false), acts + [Act(p.owner, p.job, Created, newId)],
                      p.(pc := if p.job.Service? && p.job.internet then Linking(newId) else Launching(newId)),
                      turns[1..], newId)
  {
    OneCall(hash, d, acts, p, turns, newId);
  }

  lemma Links(hash: string -> string, d: Daemon, acts: seq<Act>, p: Proc, turns: seq<Turn>, newId: nat)
    requires Sound(d) && turns != [] && turns[0] == Turn([], Up) && p.pc == Linking(newId) && newId in d.live
    ensures Driven(hash, d, acts, p, turns, newId)
            == Driven(hash, d, acts + [Act(p.owner, p.job, Linked, newId)], p.(pc := Launching(newId)), turns[1..],
                      newId)
  {
    OneCall(hash, d, acts, p, turns, newId);
  }

  lemma Starts(hash: string -> string, d: Daemon, acts: seq<Act>, p: Proc, turns: seq<Turn>, id: nat, newId: nat)
    requires Sound(d) && turns != [] && turns[0] == Turn([], Up) && (p.pc == Launching(id) || p.pc == Starting(id))
    requires id in d.live && d.live[id].name == p.name
    ensures Sound(d.(live := d.live[id := Container(p.name, true)]))
    ensures Driven(hash, d, acts, p, turns, newId)
            == Driven(hash, d.(live := d.live[id := Container(p.name, true)]),
                      acts + [Act(p.owner, p.job, Started, id)],
                      p.(pc := if p.job.Service? && p.pc.Launching? then Reporting(id) else Returned(id)), turns[1..],
                      newId)
  {
    OneCall(hash, d, acts, p, turns, newId);
  }

  lemma Reports(hash: string -> string, d: Daemon, acts: seq<Act>, p: Proc, turns: seq<Turn>, newId: nat)
    requires Sound(d) && turns != [] && turns[0] == Turn([], Up) && p.pc == Reporting(newId) && Named(d, p.name, newId)
    ensures Driven(hash, d, acts, p, turns, newId) == (d, acts, Reported(newId, newId))
  {
    OneCall(hash, d, acts, p, turns, newId);
    OneOfName(d, p.name, newId);
  }

  lemma Removes(hash: string -> string, d: Daemon, acts: seq<Act>, p: Proc, turns: seq<Turn>, id: nat, newId: nat)
    requires Sound(d) && turns != [] && turns[0] == Turn([], Up) && id in d.live
    requires p.pc in {Deleting(id), Replacing(id), Undoing(id)}
    ensures Sound(d.(live := d.live - {id}))
    ensures Driven(hash, d, acts, p, turns, newId)
            == Driven(hash, d.(live := d.live - {id}), acts + [Act(p.owner, p.job, Deleted, id)],
                      p.(pc := if p.pc.Replacing? then Creating else Stopped(p.pc.Deleting?)), turns[1..], newId)
  {
    OneCall(hash, d, acts, p, turns, newId);
  }

  // ---------------------------------------------------------------- ensureContainer

  /** A container that is there is used as it is, started if it is stopped, or refused as another's. */
  lemma EnsureUses(hash: string -> string, d: Daemon, acts: seq<Act>, p: Proc, turns: seq<Turn>, i: nat, newId: nat)
    requires Sound(d) && Smooth(turns) && |turns| >= 2
    requires p.job.Ensure? && (p.pc.Looking? || p.pc.LookingAgain?) && Named(d, p.name, i)
    ensures Driven(hash, d, acts, p, turns, newId)
            == if d.born[i].owner != "" && d.born[i].owner != p.owner then (d, acts, Stopped(false))
               else if d.live[i].running then (d, acts, Returned(i))
               else (d.(live := d.live[i := Container(p.name, true)]),
                     acts + [Act(p.owner, Ensure, Started, i)], Returned(i))
  {
    Looks(hash, d, acts, p, turns, i, newId);
    if MayUse(p.owner, d.born[i]) && !d.live[i].running {
      Starts(hash, d, acts, p.(pc := Starting(i)), turns[1..], i, newId);
    }
  }

  /** A missing one is created under this instance's label and started. */
  lemma EnsureCreates(hash: string -> string, d: Daemon, acts: seq<Act>, p: Proc, turns: seq<Turn>, newId: nat)
    requires Sound(d) && Smooth(turns) && |turns| >= 2 && !Taken(d, p.name) && newId !in d.born
    requires p.job.Ensure? && (p.pc.Creating? || p.pc.Recreating?)
    ensures Driven(hash, d, acts, p, turns, newId)
            == (Daemon(d.live[newId := Container(p.name, true)], d.born[newId := Labels(p.owner, "", None)]),
                acts + [Act(p.owner, Ensure, Created, newId), Act(p.owner, Ensure, Started, newId)],
                Returned(newId))
  {
    Creates(hash, d, acts, p, turns, newId);
    var e, did := Fresh(hash, d, p, newId, false), acts + [Act(p.owner, Ensure, Created, newId)];
    Starts(hash, e, did, p.(pc := Launching(newId)), turns[1..], newId, newId);
    assert e.live[newId := Container(p.name, true)] == d.live[newId := Container(p.name, true)];
    assert did + [Act(p.owner, Ensure, Started, newId)]
           == acts + [Act(p.owner, Ensure, Created, newId), Act(p.owner, Ensure, Started, newId)];
  }

  /** Undisturbed, ensureContainer ends with a running container of the mission's name that bears this
      instance's label or none, unless the one of that name is another instance's, which stays as it is.
      No other container changes. */
  lemma EnsureAlone(hash: string -> string, d: Daemon, owner: string, name: string, turns: seq<Turn>, newId: nat)
    requires Sound(d) && Smooth(turns) && |turns| == 7 && newId !in d.born
    ensures var (e, acts, pc) := Driven(hash, d, [], Proc(owner, name, Ensure, Looking), turns, newId);
            && (forall i | i in d.live && d.live[i].name != name :: i in e.live && e.live[i] == d.live[i])
            && if exists i :: Named(d, name, i) && d.born[i].owner != "" && d.born[i].owner != owner then
                 pc == Stopped(false) && e == d && acts == []
               else
                 && pc.Returned? && Named(e, name, pc.id) && e.live[pc.id].running && e.born[pc.id].owner in {"", owner}
                 && (pc.id in d.live <==> Taken(d, name))
                 && (Act(owner, Ensure, Started, pc.id) in acts
                     <==> (pc.id in d.live ==> !d.live[pc.id].running))
  {
    var p := Proc(owner, name, Ensure, Looking);
    if i :| i in d.live && d.live[i].name == name {
      OneOfName(d, name, i);
      EnsureUses(hash, d, [], p, turns, i, newId);
    } else {
      FindsNone(hash, d, [], p, turns, newId);
      EnsureCreates(hash, d, [], p.(pc := Creating), turns[1..], newId);
    }
  }

  /** A missing image is pulled and the container then made. */
  lemma EnsurePulls(hash: string -> string, d: Daemon, acts: seq<Act>, owner: string, name: string, turns: seq<Turn>,
                    newId: nat)
    requires Sound(d) && |turns| == 7 && !Taken(d, name) && newId !in d.born
    requires turns[0] == Turn([], Up) && turns[1] == Turn([], Missing) && Smooth(turns[2..])
    ensures Driven(hash, d, acts, Proc(owner, name, Ensure, Looking), turns, newId)
            == (Daemon(d.live[newId := Container(name, true)], d.born[newId := Labels(owner, "", None)]),
                acts + [Act(owner, Ensure, Created, newId), Act(owner, Ensure, Started, newId)],
                Returned(newId))
  {
    var p := Proc(owner, name, Ensure, Looking);
    FindsNone(hash, d, acts, p, turns, newId);
    Pulls(hash, d, acts, p.(pc := Creating), turns[1..], newId);
    assert turns[1..][1..][1..] == turns[2..][1..];
    EnsureCreates(hash, d, acts, p.(pc := Recreating), turns[2..][1..], newId);
  }

  lemma Pulls(hash: string -> string, d: Daemon, acts: seq<Act>, p: Proc, turns: seq<Turn>, newId: nat)
    requires Sound(d) && p.pc.Creating? && |turns| >= 2 && turns[0] == Turn([], Missing) && turns[1] == Turn([], Up)
    ensures Driven(hash, d, acts, p, turns, newId)
            == Driven(hash, d, acts, p.(pc := Recreating), turns[1..][1..], newId)
  {
    OneCall(hash, d, acts, p, turns, newId);
    OneCall(hash, d, acts, p.(pc := Pulling), turns[1..], newId);
  }

  /** A create that finds the name taken uses what is there now, as the first look would have. */
  lemma EnsureLooksAgain(hash: string -> string, d: Daemon, owner: string, name: string, move: Move, turns: seq<Turn>,
                         newId: nat)
    requires Sound(d) && |turns| == 7 && !Taken(d, name) && newId !in d.born
    requires move.Make? && move.id !in d.born && move.id != newId && move.name == name
    requires turns[0] == Turn([], Up) && turns[1] == Turn([move], Up) && Smooth(turns[2..])
    ensures var (e, acts, pc) := Driven(hash, d, [], Proc(owner, name, Ensure, Looking), turns, newId);
            && e.live == d.live[move.id := Container(name, move.running || pc.Returned?)]
            && pc == (if move.labels.owner in {"", owner} then Returned(move.id) else Stopped(false))
            && (acts == if pc.Returned? && !move.running then [Act(owner, Ensure, Started, move.id)] else [])
  {
    var p := Proc(owner, name, Ensure, Looking);
    FindsNone(hash, d, [], p, turns, newId);
    var m := Conflicts(hash, d, [], p.(pc := Creating), move, turns[1..], newId);
    assert turns[1..][1..] == turns[2..];
    EnsureUses(hash, m, [], p.(pc := LookingAgain), turns[2..], move.id, newId);
    assert m.live[move.id := Container(name, true)] == d.live[move.id := Container(name, true)];
  }

  lemma Conflicts(hash: string -> string, d: Daemon, acts: seq<Act>, p: Proc, move: Move, turns: seq<Turn>, newId: nat)
    returns (m: Daemon)
    requires Sound(d) && !Taken(d, p.name) && turns != [] && turns[0] == Turn([move], Up)
    requires move.Make? && move.id !in d.born && move.id != newId && newId !in d.born && move.name == p.name
    requires p.pc.Creating? && p.job.Ensure?
    ensures Sound(m) && m == Daemon(d.live[move.id := Container(p.name, move.running)],
                                    d.born[move.id := move.labels.(made := None)])
    ensures Driven(hash, d, acts, p, turns, newId) == Driven(hash, m, acts, p.(pc := LookingAgain), turns[1..], newId)
  {
    m := Moved(d, move);
    MovedKeepsSound(d, move);
    assert AllMoved(d, [move]) == m by { assert AllMoved(d, [move][..0]) == d; }
    assert Taken(m, p.name) by { assert move.id in m.live; }
    assert Turned(hash, d, acts, p, turns[0], newId) == (m, acts, LookingAgain) by { assert acts + [] == acts; }
  }

  // ---------------------------------------------------------------- Remove

  /** Undisturbed, Remove leaves no container of that name that bears this instance's label, touches no other,
      and says so. */
  lemma RemoveAlone(hash: string -> string, d: Daemon, owner: string, name: string, turns: seq<Turn>, newId: nat)
    requires Sound(d) && Smooth(turns) && |turns| == 2
    ensures var (e, acts, pc) := Driven(hash, d, [], Proc(owner, name, Remove, Looking), turns, newId);
            && pc == Stopped(true) && e.born == d.born
            && (forall i | i in d.born :: i in e.live <==>
                  i in d.live && !(d.live[i].name == name && d.born[i].owner == owner))
            && (forall i | i in e.live :: i in d.live && e.live[i] == d.live[i])
  {
    var p := Proc(owner, name, Remove, Looking);
    if i :| i in d.live && d.live[i].name == name {
      OneOfName(d, name, i);
      Looks(hash, d, [], p, turns, i, newId);
      if d.born[i].owner == owner {
        Removes(hash, d, [], p.(pc := Deleting(i)), turns[1..], i, newId);
      }
    } else {
      FindsNone(hash, d, [], p, turns, newId);
    }
  }

  // ---------------------------------------------------------------- EnsureService

  /** createService from its create on, and the closing look. */
  lemma ServiceMakes(hash: string -> string, d: Daemon, acts: seq<Act>, p: Proc, turns: seq<Turn>, newId: nat)
    requires Sound(d) && Smooth(turns) && |turns| >= 4 && !Taken(d, p.name) && newId !in d.born
    requires p.job.Service? && p.pc.Creating?
    ensures var (e, did, pc) := Driven(hash, d, acts, p, turns, newId);
            && e == Fresh(hash, d, p, newId, true) && pc == Reported(newId, newId)
            && did == acts + [Act(p.owner, p.job, Created, newId)]
                      + (if p.job.internet then [Act(p.owner, p.job, Linked, newId)] else [])
                      + [Act(p.owner, p.job, Started, newId)]
  {
    Creates(hash, d, acts, p, turns, newId);
    var e, did := Fresh(hash, d, p, newId, false), acts + [Act(p.owner, p.job, Created, newId)];
    var next := if p.job.internet then Linking(newId) else Launching(newId);
    ServiceGoes(hash, e, did, p.(pc := next), turns[1..], newId);
    assert e.live[newId := Container(p.name, true)] == d.live[newId := Container(p.name, true)];
  }

  lemma ServiceGoes(hash: string -> string, d: Daemon, acts: seq<Act>, p: Proc, turns: seq<Turn>, newId: nat)
    requires Sound(d) && Smooth(turns) && |turns| >= 3 && Named(d, p.name, newId)
    requires p.job.Service? && p.pc == if p.job.internet then Linking(newId) else Launching(newId)
    ensures Driven(hash, d, acts, p, turns, newId)
            == (d.(live := d.live[newId := Container(p.name, true)]),
                acts + (if p.job.internet then [Act(p.owner, p.job, Linked, newId)] else [])
                     + [Act(p.owner, p.job, Started, newId)],
                Reported(newId, newId))
  {
    if p.job.internet {
      Links(hash, d, acts, p, turns, newId);
      var linked := acts + [Act(p.owner, p.job, Linked, newId)];
      ServiceStarts(hash, d, linked, p.(pc := Launching(newId)), turns[1..], newId);
    } else {
      ServiceStarts(hash, d, acts, p, turns, newId);
      assert acts + [] == acts;
    }
  }

  lemma ServiceStarts(hash: string -> string, d: Daemon, acts: seq<Act>, p: Proc, turns: seq<Turn>, newId: nat)
    requires Sound(d) && Smooth(turns) && |turns| >= 2 && Named(d, p.name, newId)
    requires p.job.Service? && p.pc == Launching(newId)
    ensures Driven(hash, d, acts, p, turns, newId)
            == (d.(live := d.live[newId := Container(p.name, true)]), acts + [Act(p.owner, p.job, Started, newId)],
                Reported(newId, newId))
  {
    Starts(hash, d, acts, p, turns, newId, newId);
    Reports(hash, d.(live := d.live[newId := Container(p.name, true)]), acts + [Act(p.owner, p.job, Started, newId)],
            p.(pc := Reporting(newId)), turns[1..], newId);
  }

  /** Undisturbed, EnsureService makes a service that is not there: running, and labelled with the spec. */
  lemma ServiceAppears(hash: string -> string, d: Daemon, owner: string, name: string, text: string, internet: bool,
                       turns: seq<Turn>, newId: nat)
    requires Sound(d) && Smooth(turns) && |turns| == 8 && newId !in d.born && !Taken(d, name)
    ensures var (e, acts, pc) := Driven(hash, d, [], Proc(owner, name, Service(text, internet), Looking), turns, newId);
            && pc == Reported(newId, newId)
            && e.live == d.live[newId := Container(name, true)]
            && e.born == d.born[newId := Labels(owner, hash(text), Some(text))]
            && (Act(owner, Service(text, internet), Linked, newId) in acts <==> internet)
  {
    var p := Proc(owner, name, Service(text, internet), Looking);
    FindsNone(hash, d, [], p, turns, newId);
    ServiceMakes(hash, d, [], p.(pc := Creating), turns[1..], newId);
  }

  /** One that is there is refused as another instance's, kept if it runs as this spec, or replaced. */
  lemma ServiceIsRight(hash: string -> string, d: Daemon, owner: string, name: string, text: string, internet: bool,
                       turns: seq<Turn>, i: nat, newId: nat)
    requires Sound(d) && Smooth(turns) && |turns| == 8 && newId !in d.born && Named(d, name, i)
    ensures var (e, _, pc) := Driven(hash, d, [], Proc(owner, name, Service(text, internet), Looking), turns, newId);
            if d.born[i].owner != "" && d.born[i].owner != owner then pc == Stopped(false) && e == d
            else if d.live[i].running && d.born[i].spec == hash(text) then pc == Kept(i) && e == d
            else
              && pc == Reported(newId, newId)
              && e.live == (d.live - {i})[newId := Container(name, true)]
              && e.born == d.born[newId := Labels(owner, hash(text), Some(text))]
  {
    var p := Proc(owner, name, Service(text, internet), Looking);
    Looks(hash, d, [], p, turns, i, newId);
    if Seen(hash, p, Found(i, d.born[i], d.live[i].running)).Replacing? {
      Removes(hash, d, [], p.(pc := Replacing(i)), turns[1..], i, newId);
      ServiceMakes(hash, d.(live := d.live - {i}), [] + [Act(owner, p.job, Deleted, i)], p.(pc := Creating),
                   turns[1..][1..], newId);
    }
  }

  /** A service that cannot be connected or started is removed again: the containers are what they were. */
  lemma FailedServiceIsGone(hash: string -> string, d: Daemon, owner: string, name: string, text: string,
                            internet: bool, turns: seq<Turn>, newId: nat)
    requires Sound(d) && |turns| == 8 && newId !in d.born && !Taken(d, name)
    requires turns[0] == Turn([], Up) && turns[1] == Turn([], Up) && turns[2].moves == []
    requires if !turns[2].reply.Up? then turns[3] == Turn([], Up)
             else internet && turns[3].moves == [] && !turns[3].reply.Up? && turns[4] == Turn([], Up)
    ensures var (e, _, pc) := Driven(hash, d, [], Proc(owner, name, Service(text, internet), Looking), turns, newId);
            pc == Stopped(false) && e.live == d.live
  {
    var p := Proc(owner, name, Service(text, internet), Looking);
    FindsNone(hash, d, [], p, turns, newId);
    Creates(hash, d, [], p.(pc := Creating), turns[1..], newId);
    var e, did := Fresh(hash, d, p, newId, false), [] + [Act(owner, p.job, Created, newId)];
    UndoneAtLast(hash, e, did, p.(pc := if internet then Linking(newId) else Launching(newId)), turns[1..][1..], newId);
    assert d.live[newId := Container(name, false)] - {newId} == d.live;
  }

  lemma UndoneAtLast(hash: string -> string, d: Daemon, acts: seq<Act>, p: Proc, turns: seq<Turn>, newId: nat)
    requires Sound(d) && |turns| >= 3 && p.job.Service? && newId in d.live && turns[0].moves == []
    requires p.pc == if p.job.internet then Linking(newId) else Launching(newId)
    requires if !turns[0].reply.Up? then turns[1] == Turn([], Up)
             else p.job.internet && turns[1].moves == [] && !turns[1].reply.Up? && turns[2] == Turn([], Up)
    ensures var (e, _, pc) := Driven(hash, d, acts, p, turns, newId);
            pc == Stopped(false) && e == d.(live := d.live - {newId})
  {
    if turns[0].reply.Up? {
      Links(hash, d, acts, p, turns, newId);
      Undone(hash, d, acts + [Act(p.owner, p.job, Linked, newId)], p.(pc := Launching(newId)), turns[1..], newId);
    } else {
      Undone(hash, d, acts, p, turns, newId);
    }
  }

  lemma Undone(hash: string -> string, d: Daemon, acts: seq<Act>, p: Proc, turns: seq<Turn>, newId: nat)
    requires Sound(d) && |turns| >= 2 && turns[0].moves == [] && !turns[0].reply.Up? && turns[1] == Turn([], Up)
    requires p.job.Service? && (p.pc == Linking(newId) || p.pc == Launching(newId)) && newId in d.live
    ensures var (e, _, pc) := Driven(hash, d, acts, p, turns, newId);
            pc == Stopped(false) && e == d.(live := d.live - {newId})
  {
    OneCall(hash, d, acts, p, turns, newId);
    Removes(hash, d, acts, p.(pc := Undoing(newId)), turns[1..], newId, newId);
  }
}
