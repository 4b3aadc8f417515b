/** One stdio MCP session shared by many HTTP clients (internal/mcpbridge/bridge.go).

    Every goroutine section between two blocking points is one event; `Next` is the
    transition it makes, and a run is any sequence of enabled events.  The server is
    adversarial: it may send any message at any time, or close its output. */
module McpBridge {
  import opened Options

  type Raw = string

  /** The `id` member of a message, as far as routing can tell values apart:
      `Num` is an integer that fits int64, `Other` is anything else that is present. */
  datatype MsgId = Absent | Null | Num(value: int) | Other(raw: Raw)

  datatype Message = Message(id: MsgId, methodName: string, result: Option<Raw>, error: Option<Raw>) {
    predicate HasId() {
      id != Absent && id != Null
    }

    /** Decoding `id` into an integer: `null` decodes to 0, a missing id does not decode. */
    function IdValue(): Option<int> {
      match id
      case Absent => None
      case Null => Some(0)
      case Num(n) => Some(n)
      case Other(_) => None
    }
  }

  /** A line written to the server's stdin. */
  datatype Line =
    | Request(id: int, methodName: string)
    | Notification(methodName: string)
    | Reply(to: MsgId, known: bool)

  datatype Outcome =
    | Replied(msg: Message)
    | Replayed(result: Raw)
    | Cancelled
    | Closed
    | WriteFailed

  datatype Pc =
    | Entered
    | Queued
    | Holding
    | Numbered
    | Registered
    | Awaiting
    | Storing(msg: Message)
    | Forgetting(why: Outcome)
    | Releasing(out: Outcome)
    | Finished(out: Outcome)

  /** One `call` goroutine: its request's method, its program counter, the bridge id it
      took (0 before), its response channel (capacity 1), whether its client went away,
      how many messages its channel was ever sent, and how many messages the reader had
      read when it registered. */
  datatype Call = Call(methodName: string, pc: Pc, id: int, ch: seq<Message>,
                       cancelled: bool, sent: nat, since: nat)

  datatype NotePc = Fresh | WriteBound | Checked | Dropped | Forwarded

  datatype Note = Note(methodName: string, pc: NotePc)

  datatype Reader = Reading | Delivering(to: nat, msg: Message)

  /** The fields of the bridge every goroutine shares, and the traffic on both pipes. */
  datatype Session = Session(
    sem: bool,
    nextId: int,
    pending: map<int, nat>,
    initResult: Option<Raw>,
    initialized: bool,
    done: bool,
    written: seq<Line>,
    received: seq<Message>)

  datatype State = State(b: Session, reader: Reader, calls: map<nat, Call>, notes: map<nat, Note>)

  const INITIALIZE := "initialize"
  const INITIALIZED := "notifications/initialized"
  const CANCELLED := "notifications/cancelled"

  const START := State(Session(false, 0, map[], None, false, false, [], []), Reading, map[], map[])

  /** A step of one call goroutine; the booleans are the scheduler's choice of a ready branch. */
  datatype Action =
    | Hangup
    | Probe
    | Acquire
    | LeaveQueue(closed: bool)
    | Recheck
    | TakeId
    | Register
    | Write(ok: bool)
    | Receive
    | Abandon(closed: bool)
    | Store
    | Forget
    | Release

  datatype Event =
    | Arrive(c: nat, methodName: string)
    | Step(c: nat, a: Action)
    | Notify(n: nat, methodName: string)
    | Mark(n: nat)
    | Check(n: nat)
    | WriteNote(n: nat, ok: bool)
    | Read(msg: Message, ok: bool)   // `ok`: a reply to a server request can be written
    | Deliver
    | Eof

  function Cached(b: Session, methodName: string): Option<Raw> {
    if methodName == INITIALIZE then b.initResult else None
  }

  function Moved<A>(b: Session, k: A): Option<(Session, A)> {
    Some((b, k))
  }

  /** One step of the call goroutine `c`, whose own variables are `k`. */
  function CallNext(b: Session, c: nat, k: Call, a: Action): Option<(Session, Call)> {
    match a
    case Hangup => Moved(b, k.(cancelled := true))
    case Probe =>
      if !k.pc.Entered? then None
      else (match Cached(b, k.methodName)
            case Some(r) => Moved(b, k.(pc := Finished(Replayed(r))))
            case None => Moved(b, k.(pc := Queued)))
    case Acquire =>
      if k.pc.Queued? && !b.sem then Moved(b.(sem := true), k.(pc := Holding)) else None
    case LeaveQueue(closed) =>
      if k.pc.Queued? && (if closed then b.done else k.cancelled)
      then Moved(b, k.(pc := Finished(if closed then Closed else Cancelled)))
      else None
    case Recheck =>
      if !k.pc.Holding? then None
      else (match Cached(b, k.methodName)
            case Some(r) => Moved(b, k.(pc := Releasing(Replayed(r))))
            case None => Moved(b, k.(pc := Numbered)))
    case TakeId =>
      if k.pc.Numbered? && k.id == 0
      then Moved(b.(nextId := b.nextId + 1), k.(id := b.nextId + 1))
      else None
    case Register =>
      if k.pc.Numbered? && k.id != 0
      then Moved(b.(pending := b.pending[k.id := c]), k.(pc := Registered, since := |b.received|))
      else None
    case Write(ok) =>
      if !k.pc.Registered? then None
      else if ok then Moved(b.(written := b.written + [Request(k.id, k.methodName)]), k.(pc := Awaiting))
      else Moved(b, k.(pc := Forgetting(WriteFailed)))
    case Receive =>
      if k.pc.Awaiting? && k.ch != [] then
        var m := k.ch[0];
        var pc := if k.methodName == INITIALIZE && m.error == None then Storing(m) else Releasing(Replied(m));
        Moved(b, k.(pc := pc, ch := k.ch[1..]))
      else None
    case Abandon(closed) =>
      if k.pc.Awaiting? && (if closed then b.done else k.cancelled)
      then Moved(b, k.(pc := Forgetting(if closed then Closed else Cancelled)))
      else None
    case Store =>
      if k.pc.Storing? then Moved(b.(initResult := k.pc.msg.result), k.(pc := Releasing(Replied(k.pc.msg)))) else None
    case Forget =>
      if k.pc.Forgetting? then Moved(b.(pending := b.pending - {k.id}), k.(pc := Releasing(k.pc.why))) else None
    case Release =>
      if k.pc.Releasing? then Moved(b.(sem := false), k.(pc := Finished(k.pc.out))) else None
  }

  /** Forwarding one client notification: the flag is claimed first, the line written later. */
  function NoteMark(b: Session, k: Note): Option<(Session, Note)> {
    if !k.pc.Fresh? then None
    else if k.methodName == CANCELLED then Moved(b, k.(pc := Dropped))
    else if k.methodName == INITIALIZED then
      Moved(b.(initialized := true), k.(pc := if b.initialized then Dropped else WriteBound))
    else Moved(b, k.(pc := WriteBound))
  }

  /** The look at `done` before writing. */
  function NoteCheck(b: Session, k: Note): Option<(Session, Note)> {
    if !k.pc.WriteBound? then None else Moved(b, k.(pc := if b.done then Dropped else Checked))
  }

  function NoteWrite(b: Session, k: Note, ok: bool): Option<(Session, Note)> {
    if !k.pc.Checked? then None
    else if !ok then Moved(b, k.(pc := Dropped))
    else Moved(b.(written := b.written + [Notification(k.methodName)]), k.(pc := Forwarded))
  }

  /** What `dispatch` does with one server message, up to the channel send. */
  function Routed(b: Session, m: Message, ok: bool): (Session, Reader) {
    var r := b.(received := b.received + [m]);
    if m.methodName != "" && m.HasId() then
      (if ok then r.(written := r.written + [Reply(m.id, m.methodName == "ping")]) else r, Reading)
    else if m.methodName != "" then (r, Reading)
    else match m.IdValue()
      case None => (r, Reading)
      case Some(id) =>
        if id in b.pending then (r.(pending := b.pending - {id}), Delivering(b.pending[id], m))
        else (r, Reading)
  }

  function Next(s: State, e: Event): Option<State> {
    match e
    case Arrive(c, m) =>
      if c in s.calls then None
      else Some(s.(calls := s.calls[c := Call(m, Entered, 0, [], false, 0, 0)]))
    case Step(c, a) =>
      if c !in s.calls then None
      else (match CallNext(s.b, c, s.calls[c], a)
            case None => None
            case Some(r) => Some(s.(b := r.0, calls := s.calls[c := r.1])))
    case Notify(n, m) =>
      if n in s.notes then None else Some(s.(notes := s.notes[n := Note(m, Fresh)]))
    case Mark(n) =>
      if n !in s.notes then None
      else (match NoteMark(s.b, s.notes[n])
            case None => None
            case Some(r) => Some(s.(b := r.0, notes := s.notes[n := r.1])))
    case Check(n) =>
      if n !in s.notes then None
      else (match NoteCheck(s.b, s.notes[n])
            case None => None
            case Some(r) => Some(s.(b := r.0, notes := s.notes[n := r.1])))
    case WriteNote(n, ok) =>
      if n !in s.notes then None
      else (match NoteWrite(s.b, s.notes[n], ok)
            case None => None
            case Some(r) => Some(s.(b := r.0, notes := s.notes[n := r.1])))
    case Read(m, ok) =>
      // the reader reads only between deliveries, and never after end of file
      if s.reader.Reading? && !s.b.done
      then var r := Routed(s.b, m, ok); Some(s.(b := r.0, reader := r.1))
      else None
    case Deliver =>
      // a full channel would block the reader
      if s.reader.Delivering? && s.reader.to in s.calls && s.calls[s.reader.to].ch == [] then
        var k := s.calls[s.reader.to];
        Some(s.(reader := Reading, calls := s.calls[s.reader.to := k.(ch := [s.reader.msg], sent := k.sent + 1)]))
      else None
    case Eof =>
      if s.reader.Reading? && !s.b.done then Some(s.(b := s.b.(done := true))) else None
  }

  /** The state after a sequence of events, `None` when one of them was not enabled. */
  function Run(s: State, es: seq<Event>): Option<State>
    decreases |es|
  {
    if es == [] then Some(s)
    else match Next(s, es[0])
      case None => None
      case Some(t) => Run(t, es[1..])
  }

  // ---------------------------------------------------------------- the invariant

  /** Whether a call at this point holds the semaphore. */
  predicate Holds(pc: Pc) {
    pc.Holding? || pc.Numbered? || pc.Registered? || pc.Awaiting? || pc.Storing? || pc.Forgetting? || pc.Releasing?
  }

  /** `m` is a response the server sent with call `k`'s own bridge id, after `k` registered it. */
  ghost predicate Genuine(b: Session, k: Call, m: Message) {
    && m.methodName == "" && k.id != 0 && m.id == Num(k.id)
    && k.since <= |b.received| && m in b.received[k.since..]
  }

  /** The response a call has been handed, if any. */
  function Handed(pc: Pc): Option<Message> {
    match pc
    case Storing(m) => Some(m)
    case Releasing(Replied(m)) => Some(m)
    case Finished(Replied(m)) => Some(m)
    case _ => None
  }

  function Replay(pc: Pc): Option<Raw> {
    match pc
    case Releasing(Replayed(r)) => Some(r)
    case Finished(Replayed(r)) => Some(r)
    case _ => None
  }

  predicate HasWriteAhead(pc: Pc) {
    pc.Numbered? || pc.Registered? || pc.Awaiting? || pc.Storing?
  }

  ghost predicate CallOk(b: Session, k: Call) {
    && 0 <= k.id <= b.nextId
    && (k.pc.Entered? || k.pc.Queued? || k.pc.Holding? ==> k.id == 0)
    && (k.pc.Registered? || k.pc.Awaiting? || k.pc.Storing? || k.pc.Forgetting? ==> k.id != 0)
    && (Holds(k.pc) ==> b.sem)
    && (k.pc.Forgetting? ==> !k.pc.why.Replied? && !k.pc.why.Replayed?)
    && |k.ch| <= k.sent <= 1
    && (k.sent == 0 ==> Handed(k.pc) == None)
    && k.since <= |b.received|
    && (k.ch != [] ==> Handed(k.pc) == None && Genuine(b, k, k.ch[0]))
    && (Handed(k.pc).Some? ==> Genuine(b, k, Handed(k.pc).value))
    && (k.id == 0 || k.pc.Numbered? ==> k.sent == 0)
  }

  /** What a call knows about the cached handshake. */
  ghost predicate InitOk(b: Session, k: Call) {
    && (k.methodName == INITIALIZE && HasWriteAhead(k.pc) ==> b.initResult == None)
    && (k.pc.Storing? ==> k.methodName == INITIALIZE && k.pc.msg.error == None)
    && (Replay(k.pc).Some? ==> k.methodName == INITIALIZE && b.initResult == Replay(k.pc))
    && (k.methodName == INITIALIZE && !k.pc.Storing? && Handed(k.pc).Some?
          && Handed(k.pc).value.error == None && Handed(k.pc).value.result.Some?
        ==> b.initResult == Handed(k.pc).value.result)
  }

  ghost predicate PendingOk(s: State, id: int)
    requires id in s.b.pending
  {
    var c := s.b.pending[id];
    && c in s.calls
    && s.calls[c].id == id != 0
    && s.calls[c].sent == 0
    && (s.calls[c].pc.Registered? || s.calls[c].pc.Awaiting? || s.calls[c].pc.Forgetting?)
  }

  ghost predicate ReaderOk(s: State) {
    s.reader.Delivering? ==>
      && s.reader.to in s.calls
      && s.calls[s.reader.to].sent == 0
      && s.calls[s.reader.to].id !in s.b.pending
      && !s.calls[s.reader.to].pc.Numbered?
      && Genuine(s.b, s.calls[s.reader.to], s.reader.msg)
  }

  ghost predicate Apart(k: Call, l: Call) {
    !(Holds(k.pc) && Holds(l.pc)) && (k.id != 0 ==> k.id != l.id)
  }

  ghost predicate Exclusive(calls: map<nat, Call>) {
    forall c, d | c in calls && d in calls && c != d :: Apart(calls[c], calls[d])
  }

  /** How many lines of `log` forward the client's `notifications/initialized`. */
  function Forwards(log: seq<Line>): nat {
    if log == [] then 0
    else Forwards(log[..|log|-1]) + (if log[|log|-1] == Notification(INITIALIZED) then 1 else 0)
  }

  ghost predicate Bound(notes: map<nat, Note>, n: nat) {
    n in notes && notes[n].methodName == INITIALIZED && (notes[n].pc.WriteBound? || notes[n].pc.Checked?)
  }

  ghost predicate NotesOk(b: Session, notes: map<nat, Note>) {
    && Forwards(b.written) <= 1
    && (!b.initialized ==> Forwards(b.written) == 0)
    && (forall n :: Bound(notes, n) ==> b.initialized && Forwards(b.written) == 0)
    && (forall n, m :: Bound(notes, n) && Bound(notes, m) ==> n == m)
  }

  ghost predicate CallsOk(s: State) {
    && 0 <= s.b.nextId
    && (forall c | c in s.calls :: CallOk(s.b, s.calls[c]))
    && (forall c | c in s.calls :: InitOk(s.b, s.calls[c]))
    && (forall id | id in s.b.pending :: PendingOk(s, id))
    && ReaderOk(s)
    && Exclusive(s.calls)
  }

  ghost predicate Inv(s: State) {
    CallsOk(s) && NotesOk(s.b, s.notes)
  }

  // ---------------------------------------------------------------- preservation

  lemma ForwardsAppend(log: seq<Line>, l: Line)
    ensures Forwards(log + [l]) == Forwards(log) + (if l == Notification(INITIALIZED) then 1 else 0)
  {
    assert (log + [l])[..|log|] == log;
  }

  /** What one call step may do to the shared fields, seen by everyone else. */
  ghost predicate Guarantee(b: Session, c: nat, k: Call, b': Session, k': Call) {
    && b'.received == b.received && b'.done == b.done && b'.initialized == b.initialized
    && b.nextId <= b'.nextId
    && (b'.sem == b.sem || (b'.sem && Holds(k'.pc) && !Holds(k.pc)) || (Holds(k.pc) && !Holds(k'.pc)))
    && (Holds(k'.pc) && !Holds(k.pc) ==> !b.sem)
    && (k'.id == k.id || (k.id == 0 && b.nextId < k'.id <= b'.nextId))
    && (b'.pending == b.pending || b'.pending == b.pending[k.id := c] || b'.pending == b.pending - {k.id})
    && (b'.initResult == b.initResult || (Holds(k.pc) && b.initResult == None))
    && (b'.written == b.written || b'.written == b.written + [Request(k.id, k.methodName)])
    && k'.sent == k.sent
    && k'.methodName == k.methodName
  }

  lemma CallStepOk(b: Session, c: nat, k: Call, a: Action)
    requires CallOk(b, k) && CallNext(b, c, k, a).Some? && 0 <= b.nextId
    ensures CallOk(CallNext(b, c, k, a).value.0, CallNext(b, c, k, a).value.1)
  {
    if a.TakeId? || a.Register? || a.Write? {
      RequestStepOk(b, c, k, a);
    } else if a.Receive? || a.Store? {
      AnswerStepOk(b, c, k, a);
    } else {
      OtherStepOk(b, c, k, a);
    }
  }

  lemma RequestStepOk(b: Session, c: nat, k: Call, a: Action)
    requires CallOk(b, k) && CallNext(b, c, k, a).Some? && 0 <= b.nextId
    requires a.TakeId? || a.Register? || a.Write?
    ensures CallOk(CallNext(b, c, k, a).value.0, CallNext(b, c, k, a).value.1)
  {
  }

  lemma AnswerStepOk(b: Session, c: nat, k: Call, a: Action)
    requires CallOk(b, k) && CallNext(b, c, k, a).Some? && 0 <= b.nextId
    requires a.Receive? || a.Store?
    ensures CallOk(CallNext(b, c, k, a).value.0, CallNext(b, c, k, a).value.1)
  {
  }

  lemma OtherStepOk(b: Session, c: nat, k: Call, a: Action)
    requires CallOk(b, k) && CallNext(b, c, k, a).Some? && 0 <= b.nextId
    requires !(a.TakeId? || a.Register? || a.Write? || a.Receive? || a.Store?)
    ensures CallOk(CallNext(b, c, k, a).value.0, CallNext(b, c, k, a).value.1)
  {
  }

  lemma CallStepInit(b: Session, c: nat, k: Call, a: Action)
    requires CallOk(b, k) && InitOk(b, k) && CallNext(b, c, k, a).Some?
    ensures InitOk(CallNext(b, c, k, a).value.0, CallNext(b, c, k, a).value.1)
  {
    if a.Receive? || a.Store? { AnswerStepInit(b, c, k, a); } else { OtherStepInit(b, c, k, a); }
  }

  lemma OtherStepInit(b: Session, c: nat, k: Call, a: Action)
    requires CallOk(b, k) && InitOk(b, k) && CallNext(b, c, k, a).Some? && !a.Receive? && !a.Store?
    ensures InitOk(CallNext(b, c, k, a).value.0, CallNext(b, c, k, a).value.1)
  {
  }

  lemma AnswerStepInit(b: Session, c: nat, k: Call, a: Action)
    requires CallOk(b, k) && InitOk(b, k) && CallNext(b, c, k, a).Some? && (a.Receive? || a.Store?)
    ensures InitOk(CallNext(b, c, k, a).value.0, CallNext(b, c, k, a).value.1)
  {
  }

  lemma CallStepGuarantee(b: Session, c: nat, k: Call, a: Action)
    requires CallOk(b, k) && InitOk(b, k) && CallNext(b, c, k, a).Some?
    ensures Guarantee(b, c, k, CallNext(b, c, k, a).value.0, CallNext(b, c, k, a).value.1)
  {
    if a.TakeId? || a.Register? || a.Write? || a.Store? || a.Forget? {
      SharedStepGuarantee(b, c, k, a);
    } else {
      OwnStepGuarantee(b, c, k, a);
    }
  }

  lemma SharedStepGuarantee(b: Session, c: nat, k: Call, a: Action)
    requires CallOk(b, k) && InitOk(b, k) && CallNext(b, c, k, a).Some?
    requires a.TakeId? || a.Register? || a.Write? || a.Store? || a.Forget?
    ensures Guarantee(b, c, k, CallNext(b, c, k, a).value.0, CallNext(b, c, k, a).value.1)
  {
  }

  lemma OwnStepGuarantee(b: Session, c: nat, k: Call, a: Action)
    requires CallOk(b, k) && CallNext(b, c, k, a).Some?
    requires !(a.TakeId? || a.Register? || a.Write? || a.Store? || a.Forget?)
    ensures Guarantee(b, c, k, CallNext(b, c, k, a).value.0, CallNext(b, c, k, a).value.1)
  {
  }

  /** A call's own step keeps its own facts and its promise to the others. */
  lemma CallStep(b: Session, c: nat, k: Call, a: Action)
    requires CallOk(b, k) && InitOk(b, k) && CallNext(b, c, k, a).Some? && 0 <= b.nextId
    ensures var (b', k') := CallNext(b, c, k, a).value;
            CallOk(b', k') && InitOk(b', k') && Guarantee(b, c, k, b', k')
  {
    CallStepOk(b, c, k, a);
    CallStepInit(b, c, k, a);
    CallStepGuarantee(b, c, k, a);
  }

  /** Another call keeps its facts under a guaranteed step. */
  lemma OtherCall(b: Session, c: nat, k: Call, b': Session, k': Call, l: Call)
    requires CallOk(b, l) && InitOk(b, l) && CallOk(b, k) && CallOk(b', k')
    requires Apart(k, l) && Guarantee(b, c, k, b', k')
    ensures CallOk(b', l) && InitOk(b', l) && Apart(k', l) && Apart(l, k')
  {
  }

  lemma StepKeepsCalls(s: State, c: nat, a: Action)
    requires CallsOk(s) && Next(s, Step(c, a)).Some?
    ensures CallsOk(Next(s, Step(c, a)).value)
  {
    var t := Next(s, Step(c, a)).value;
    CallStep(s.b, c, s.calls[c], a);
    StepKeepsOthers(s, c, a);
    StepKeepsReader(s, c, a);
    forall id | id in t.b.pending ensures PendingOk(t, id) {
      StepKeepsPending(s, c, a, id);
    }
  }

  lemma StepKeepsOthers(s: State, c: nat, a: Action)
    requires CallsOk(s) && Next(s, Step(c, a)).Some?
    ensures var t := Next(s, Step(c, a)).value;
            && (forall d | d in t.calls && d != c :: CallOk(t.b, t.calls[d]) && InitOk(t.b, t.calls[d]))
            && Exclusive(t.calls)
  {
    var t := Next(s, Step(c, a)).value;
    var k, k' := s.calls[c], t.calls[c];
    CallStep(s.b, c, k, a);
    forall d | d in t.calls && d != c
      ensures CallOk(t.b, t.calls[d]) && InitOk(t.b, t.calls[d]) && Apart(k', t.calls[d]) && Apart(t.calls[d], k') {
      OtherCall(s.b, c, k, t.b, k', s.calls[d]);
    }
  }

  lemma StepKeepsReader(s: State, c: nat, a: Action)
    requires CallsOk(s) && Next(s, Step(c, a)).Some?
    ensures ReaderOk(Next(s, Step(c, a)).value)
  {
    var t := Next(s, Step(c, a)).value;
    if s.reader.Delivering? {
      var k, k' := s.calls[c], t.calls[c];
      CallStepGuarantee(s.b, c, k, a);
      if s.reader.to == c {
        ReceiverStep(s.b, c, k, a, s.reader.msg);
      } else {
        assert Apart(k, s.calls[s.reader.to]) && Apart(s.calls[s.reader.to], k);
        BesideReceiver(s.b, c, k, t.b, k', s.calls[s.reader.to], s.reader.msg);
      }
    }
  }

  /** A call whose response is on its way cannot register or renumber itself. */
  lemma ReceiverStep(b: Session, c: nat, k: Call, a: Action, m: Message)
    requires CallOk(b, k) && CallNext(b, c, k, a).Some?
    requires k.sent == 0 && k.id !in b.pending && !k.pc.Numbered? && Genuine(b, k, m)
    ensures var (b', k') := CallNext(b, c, k, a).value;
            k'.sent == 0 && k'.id !in b'.pending && !k'.pc.Numbered? && Genuine(b', k', m)
  {
  }

  lemma BesideReceiver(b: Session, c: nat, k: Call, b': Session, k': Call, l: Call, m: Message)
    requires Guarantee(b, c, k, b', k') && Apart(l, k) && l.id !in b.pending && Genuine(b, l, m)
    ensures l.id !in b'.pending && Genuine(b', l, m)
  {
  }

  lemma StepKeepsPending(s: State, c: nat, a: Action, id: int)
    requires CallsOk(s) && Next(s, Step(c, a)).Some? && id in Next(s, Step(c, a)).value.b.pending
    ensures PendingOk(Next(s, Step(c, a)).value, id)
  {
    var t, k := Next(s, Step(c, a)).value, s.calls[c];
    if id in s.b.pending && s.b.pending[id] != c {
      assert PendingOk(s, id) && Apart(k, s.calls[s.b.pending[id]]);
      CallStepGuarantee(s.b, c, k, a);
    } else {
      assert id in s.b.pending ==> PendingOk(s, id);
      OwnPending(s.b, c, k, a, id);
    }
  }

  /** An id that is pending for a call after its own step. */
  lemma OwnPending(b: Session, c: nat, k: Call, a: Action, id: int)
    requires CallOk(b, k) && CallNext(b, c, k, a).Some? && id in CallNext(b, c, k, a).value.0.pending
    requires id in b.pending ==>
               && b.pending[id] == c && k.id == id != 0 && k.sent == 0
               && (k.pc.Registered? || k.pc.Awaiting? || k.pc.Forgetting?)
    ensures var (b', k') := CallNext(b, c, k, a).value;
            && b'.pending[id] == c && k'.id == id != 0 && k'.sent == 0
            && (k'.pc.Registered? || k'.pc.Awaiting? || k'.pc.Forgetting?)
  {
  }

  lemma StepKeepsNotes(s: State, c: nat, a: Action)
    requires Inv(s) && Next(s, Step(c, a)).Some?
    ensures NotesOk(Next(s, Step(c, a)).value.b, s.notes)
  {
    CallStep(s.b, c, s.calls[c], a);
    var t := Next(s, Step(c, a)).value;
    if t.b.written != s.b.written {
      ForwardsAppend(s.b.written, t.b.written[|s.b.written|]);
    }
  }

  /** Messages read later leave earlier ones where they were. */
  lemma ReadMore(b: Session, k: Call, m: Message, msg: Message)
    requires Genuine(b, k, m)
    ensures Genuine(b.(received := b.received + [msg]), k, m)
  {
    var r := b.received + [msg];
    assert r[k.since..] == b.received[k.since..] + [msg];
  }

  lemma ReadKeepsCall(b: Session, k: Call, m: Message, ok: bool)
    requires CallOk(b, k) && InitOk(b, k)
    ensures CallOk(Routed(b, m, ok).0, k) && InitOk(Routed(b, m, ok).0, k)
  {
    if k.ch != [] { ReadMore(b, k, k.ch[0], m); }
    if Handed(k.pc).Some? { ReadMore(b, k, Handed(k.pc).value, m); }
  }

  lemma ReadKeepsCalls(s: State, m: Message, ok: bool)
    requires CallsOk(s) && Next(s, Read(m, ok)).Some?
    ensures CallsOk(Next(s, Read(m, ok)).value)
  {
    var t := Next(s, Read(m, ok)).value;
    forall c | c in t.calls ensures CallOk(t.b, t.calls[c]) && InitOk(t.b, t.calls[c]) {
      ReadKeepsCall(s.b, s.calls[c], m, ok);
    }
    forall id | id in t.b.pending ensures PendingOk(t, id) {
      assert PendingOk(s, id);
    }
    ReadFindsReceiver(s, m, ok);
  }

  lemma ReadFindsReceiver(s: State, m: Message, ok: bool)
    requires CallsOk(s) && Next(s, Read(m, ok)).Some?
    ensures ReaderOk(Next(s, Read(m, ok)).value)
  {
    var t := Next(s, Read(m, ok)).value;
    if t.reader.Delivering? {
      assert PendingOk(s, m.id.value);
      var k := s.calls[t.reader.to];
      assert CallOk(s.b, k);
      assert (s.b.received + [m])[k.since..] == s.b.received[k.since..] + [m];
      assert m in t.b.received[k.since..];
    }
  }

  lemma DeliverKeepsCalls(s: State)
    requires CallsOk(s) && Next(s, Deliver).Some?
    ensures CallsOk(Next(s, Deliver).value)
  {
    var t := Next(s, Deliver).value;
    var c := s.reader.to;
    assert CallOk(s.b, s.calls[c]) && InitOk(s.b, s.calls[c]);
    forall id | id in t.b.pending ensures PendingOk(t, id) {
      assert PendingOk(s, id);
    }
  }

  lemma ArriveKeepsCalls(s: State, c: nat, methodName: string)
    requires CallsOk(s) && Next(s, Arrive(c, methodName)).Some?
    ensures CallsOk(Next(s, Arrive(c, methodName)).value)
  {
    var t := Next(s, Arrive(c, methodName)).value;
    forall id | id in t.b.pending ensures PendingOk(t, id) {
      assert PendingOk(s, id);
    }
  }

  lemma OnlyNotesMoved(s: State, t: State)
    requires CallsOk(s) && t.calls == s.calls && t.reader == s.reader
    requires t.b == s.b.(initialized := t.b.initialized, written := t.b.written, done := t.b.done)
    ensures CallsOk(t)
  {
    forall c | c in t.calls ensures CallOk(t.b, t.calls[c]) && InitOk(t.b, t.calls[c]) {
      assert CallOk(s.b, s.calls[c]) && InitOk(s.b, s.calls[c]);
    }
    forall id | id in t.b.pending ensures PendingOk(t, id) {
      assert PendingOk(s, id);
    }
  }

  /** Marking claims the flag for at most one note; writing spends the claim. */
  lemma NoteMoved(b: Session, notes: map<nat, Note>, n: nat, b': Session, k': Note)
    requires NotesOk(b, notes) && n in notes
    requires NoteMark(b, notes[n]) == Some((b', k')) || NoteCheck(b, notes[n]) == Some((b', k'))
          || NoteWrite(b, notes[n], true) == Some((b', k')) || NoteWrite(b, notes[n], false) == Some((b', k'))
    ensures NotesOk(b', notes[n := k'])
  {
    if NoteMark(b, notes[n]) == Some((b', k')) {
      NoteMarked(b, notes, n, b', k');
    } else if NoteCheck(b, notes[n]) == Some((b', k')) {
      NoteChecked(b, notes, n, k');
    } else {
      NoteWritten(b, notes, n, b', k');
    }
  }

  lemma NoteMarked(b: Session, notes: map<nat, Note>, n: nat, b': Session, k': Note)
    requires NotesOk(b, notes) && n in notes && NoteMark(b, notes[n]) == Some((b', k'))
    ensures NotesOk(b', notes[n := k'])
  {
    var notes' := notes[n := k'];
    forall o | Bound(notes', o) && o != n ensures Bound(notes, o) {}
  }

  lemma NoteChecked(b: Session, notes: map<nat, Note>, n: nat, k': Note)
    requires NotesOk(b, notes) && n in notes && NoteCheck(b, notes[n]) == Some((b, k'))
    ensures NotesOk(b, notes[n := k'])
  {
    var notes' := notes[n := k'];
    forall o | Bound(notes', o) ensures Bound(notes, o) {}
  }

  lemma NoteWritten(b: Session, notes: map<nat, Note>, n: nat, b': Session, k': Note)
    requires NotesOk(b, notes) && n in notes
    requires NoteWrite(b, notes[n], true) == Some((b', k')) || NoteWrite(b, notes[n], false) == Some((b', k'))
    ensures NotesOk(b', notes[n := k'])
  {
    ForwardsAppend(b.written, Notification(notes[n].methodName));
    assert notes[n].methodName == INITIALIZED ==> Bound(notes, n);
    var notes' := notes[n := k'];
    forall o | Bound(notes', o) ensures Bound(notes, o) && o != n {}
  }

  lemma NotifyKeepsNotes(b: Session, notes: map<nat, Note>, n: nat, k: Note)
    requires NotesOk(b, notes) && n !in notes && k.pc.Fresh?
    ensures NotesOk(b, notes[n := k])
  {
    var notes' := notes[n := k];
    forall o | Bound(notes', o) ensures Bound(notes, o) {}
  }

  lemma NoteEventKeepsInv(s: State, e: Event)
    requires Inv(s) && Next(s, e).Some? && (e.Notify? || e.Mark? || e.Check? || e.WriteNote?)
    ensures Inv(Next(s, e).value)
  {
    var t := Next(s, e).value;
    OnlyNotesMoved(s, t);
    if e.Notify? {
      NotifyKeepsNotes(s.b, s.notes, e.n, Note(e.methodName, Fresh));
    } else {
      NoteMoved(s.b, s.notes, e.n, t.b, t.notes[e.n]);
    }
  }

  lemma DispatchKeepsNotes(b: Session, m: Message, ok: bool, notes: map<nat, Note>)
    requires NotesOk(b, notes)
    ensures NotesOk(Routed(b, m, ok).0, notes)
  {
    ForwardsAppend(b.written, Reply(m.id, m.methodName == "ping"));
  }

  lemma NextKeepsInv(s: State, e: Event)
    requires Inv(s) && Next(s, e).Some?
    ensures Inv(Next(s, e).value)
  {
    match e
    case Arrive(c, m) => ArriveKeepsCalls(s, c, m);
    case Step(c, a) => StepKeepsCalls(s, c, a); StepKeepsNotes(s, c, a);
    case Read(m, ok) => ReadKeepsCalls(s, m, ok); DispatchKeepsNotes(s.b, m, ok, s.notes);
    case Deliver => DeliverKeepsCalls(s);
    case Eof => OnlyNotesMoved(s, Next(s, e).value);
    case Notify(_, _) => NoteEventKeepsInv(s, e);
    case Mark(_) => NoteEventKeepsInv(s, e);
    case Check(_) => NoteEventKeepsInv(s, e);
    case WriteNote(_, _) => NoteEventKeepsInv(s, e);
  }

  lemma {:induction false} RunKeepsInv(s: State, es: seq<Event>)
    requires Inv(s) && Run(s, es).Some?
    ensures Inv(Run(s, es).value)
    decreases |es|
  {
    if es != [] {
      NextKeepsInv(s, es[0]);
      RunKeepsInv(Next(s, es[0]).value, es[1..]);
    }
  }

  // ---------------------------------------------------------------- whole runs

  ghost predicate Reachable(s: State) {
    exists es :: Run(START, es) == Some(s)
  }

  lemma ReachableInv(s: State)
    requires Reachable(s)
    ensures Inv(s)
  {
    var es :| Run(START, es) == Some(s);
    RunKeepsInv(START, es);
  }

  /** At most one client request is in flight; `pending` holds at most that request's id; a
      channel is sent to at most once, so the reader can always finish the delivery it began. */
  lemma OneInFlight(s: State)
    requires Reachable(s)
    ensures forall c, d | c in s.calls && d in s.calls && Holds(s.calls[c].pc) && Holds(s.calls[d].pc) :: c == d
    ensures forall id, id2 | id in s.b.pending && id2 in s.b.pending :: id == id2
    ensures forall id | id in s.b.pending ::
              s.b.pending[id] in s.calls && Holds(s.calls[s.b.pending[id]].pc) && s.calls[s.b.pending[id]].id == id
    ensures forall c | c in s.calls :: |s.calls[c].ch| <= s.calls[c].sent <= 1
    ensures s.reader.Delivering? ==> Next(s, Deliver).Some?
  {
    ReachableInv(s);
    forall c, d | c in s.calls && d in s.calls && Holds(s.calls[c].pc) && Holds(s.calls[d].pc) ensures c == d {
      assert c != d ==> Apart(s.calls[c], s.calls[d]);
    }
    forall id | id in s.b.pending ensures PendingOk(s, id) {}
    forall c | c in s.calls ensures CallOk(s.b, s.calls[c]) {}
  }

  /** A call answers its client with a server response only if the server sent exactly that
      response, under this call's own bridge id, after the call registered the id; no other
      call ever had that id. */
  lemma ResponseIsOwn(s: State, c: nat, m: Message)
    requires Reachable(s) && c in s.calls && Handed(s.calls[c].pc) == Some(m)
    ensures Genuine(s.b, s.calls[c], m)
    ensures forall d | d in s.calls && d != c :: Num(s.calls[d].id) != m.id && Handed(s.calls[d].pc) != Some(m)
  {
    ReachableInv(s);
    assert CallOk(s.b, s.calls[c]);
    forall d | d in s.calls && d != c ensures Num(s.calls[d].id) != m.id && Handed(s.calls[d].pc) != Some(m) {
      assert Apart(s.calls[c], s.calls[d]);
      assert CallOk(s.b, s.calls[d]);
    }
  }

  /** A call past its wait: answered, cancelled, closed out, or failed to write; and with what. */
  function Settlement(pc: Pc): Option<Outcome> {
    match pc
    case Forgetting(why) => Some(why)
    case Releasing(out) => Some(out)
    case Finished(out) => Some(out)
    case _ => None
  }

  lemma SettledStays(s: State, e: Event, c: nat)
    requires c in s.calls && Settlement(s.calls[c].pc).Some? && Next(s, e).Some?
    ensures var t := Next(s, e).value;
            && c in t.calls && t.calls[c].id == s.calls[c].id
            && Settlement(t.calls[c].pc) == Settlement(s.calls[c].pc)
  {
  }

  lemma {:induction false} SettledForGood(s: State, es: seq<Event>, c: nat)
    requires c in s.calls && Settlement(s.calls[c].pc).Some? && Run(s, es).Some?
    ensures var t := Run(s, es).value;
            && c in t.calls && t.calls[c].id == s.calls[c].id
            && Settlement(t.calls[c].pc) == Settlement(s.calls[c].pc)
    decreases |es|
  {
    if es != [] {
      SettledStays(s, es[0], c);
      SettledForGood(Next(s, es[0]).value, es[1..], c);
    }
  }

  /** A call past its wait keeps its outcome through every run, whatever the reader is in the middle of: what
      still reaches its channel is never looked at, and that is one message in all.  Once its id is forgotten
      and nothing is on its way, a response under that id changes nothing but the record of what was read. */
  lemma LateResponsesAreDropped(s: State, es: seq<Event>, c: nat, m: Message, ok: bool)
    requires Reachable(s) && c in s.calls && Settlement(s.calls[c].pc).Some? && Run(s, es).Some?
    ensures var t := Run(s, es).value;
            && c in t.calls && Settlement(t.calls[c].pc) == Settlement(s.calls[c].pc) && t.calls[c].sent <= 1
            && (!t.calls[c].pc.Forgetting? && !(t.reader.Delivering? && t.reader.to == c)
                && m.methodName == "" && t.calls[c].id != 0 && m.id == Num(t.calls[c].id)
                && Next(t, Read(m, ok)).Some? ==>
                  Next(t, Read(m, ok)).value == t.(b := t.b.(received := t.b.received + [m])))
  {
    ReachableInv(s);
    RunKeepsInv(s, es);
    SettledForGood(s, es, c);
    var t := Run(s, es).value;
    assert CallOk(t.b, t.calls[c]);
    if !t.calls[c].pc.Forgetting? { NoLongerPending(t, c); }
  }

  lemma NoLongerPending(t: State, c: nat)
    requires CallsOk(t) && c in t.calls && Settlement(t.calls[c].pc).Some? && !t.calls[c].pc.Forgetting?
    ensures t.calls[c].id !in t.b.pending
  {
    if t.calls[c].id in t.b.pending {
      assert PendingOk(t, t.calls[c].id);
      OneHolder(t, c, t.b.pending[t.calls[c].id]);
    }
  }

  lemma OneHolder(t: State, c: nat, d: nat)
    requires CallsOk(t) && c in t.calls && d in t.calls && t.calls[c].id == t.calls[d].id != 0
    ensures c == d
  {
    assert c != d ==> Apart(t.calls[c], t.calls[d]);
  }

  /** The server sent the cached result as a response without an error. */
  ghost predicate Sent(b: Session, r: Raw) {
    exists m :: m in b.received && m.methodName == "" && m.error == None && m.result == Some(r)
  }

  lemma OnlyStoreCaches(b: Session, c: nat, k: Call, a: Action)
    requires CallNext(b, c, k, a).Some?
    ensures var b' := CallNext(b, c, k, a).value.0;
            && b'.received == b.received
            && (b'.initResult == b.initResult || (k.pc.Storing? && b'.initResult == k.pc.msg.result))
  {
  }

  lemma StoringIsSent(b: Session, k: Call)
    requires CallOk(b, k) && InitOk(b, k) && k.pc.Storing? && k.pc.msg.result.Some?
    ensures Sent(b, k.pc.msg.result.value)
  {
    assert k.pc.msg in b.received;
  }

  lemma SentStays(b: Session, b': Session, r: Raw)
    requires Sent(b, r) && b.received <= b'.received
    ensures Sent(b', r)
  {
    var m :| m in b.received && m.methodName == "" && m.error == None && m.result == Some(r);
    assert m in b'.received;
  }

  lemma CachedStep(s: State, e: Event)
    requires Inv(s) && Next(s, e).Some? && (s.b.initResult.Some? ==> Sent(s.b, s.b.initResult.value))
    ensures var b := Next(s, e).value.b; b.initResult.Some? ==> Sent(b, b.initResult.value)
  {
    var b := Next(s, e).value.b;
    if e.Step? {
      var k := s.calls[e.c];
      OnlyStoreCaches(s.b, e.c, k, e.a);
      assert CallOk(s.b, k) && InitOk(s.b, k);
      if b.initResult.Some? {
        if b.initResult != s.b.initResult { StoringIsSent(s.b, k); }
        SentStays(s.b, b, b.initResult.value);
      }
    } else {
      StepsAside(s, e);
      assert s.b.received <= b.received;
      if b.initResult.Some? { SentStays(s.b, b, b.initResult.value); }
    }
  }

  lemma {:induction false} CachedRun(s: State, es: seq<Event>)
    requires Inv(s) && Run(s, es).Some? && (s.b.initResult.Some? ==> Sent(s.b, s.b.initResult.value))
    ensures var b := Run(s, es).value.b; b.initResult.Some? ==> Sent(b, b.initResult.value)
    decreases |es|
  {
    if es != [] {
      CachedStep(s, es[0]);
      NextKeepsInv(s, es[0]);
      CachedRun(Next(s, es[0]).value, es[1..]);
    }
  }

  /** What is replayed to an `initialize` is a result the server itself once sent, with no error; nothing else
      is ever replayed. */
  lemma CachedIsGenuine(s: State, methodName: string)
    requires Reachable(s) && Cached(s.b, methodName).Some?
    ensures methodName == INITIALIZE && Sent(s.b, Cached(s.b, methodName).value)
  {
    var es :| Run(START, es) == Some(s);
    CachedRun(START, es);
  }

  /** The client's `notifications/initialized` is written at most once per bridge. */
  lemma InitializedForwardedAtMostOnce(s: State)
    requires Reachable(s)
    ensures Forwards(s.b.written) <= 1
  {
    ReachableInv(s);
  }

  /** How many `initialize` requests were written to the server. */
  function Handshakes(log: seq<Line>): nat {
    if log == [] then 0
    else
      var last := log[|log|-1];
      Handshakes(log[..|log|-1]) + (if last.Request? && last.methodName == INITIALIZE then 1 else 0)
  }

  lemma HandshakesAppend(log: seq<Line>, l: Line)
    ensures Handshakes(log + [l]) == Handshakes(log) + (if l.Request? && l.methodName == INITIALIZE then 1 else 0)
  {
    assert (log + [l])[..|log|] == log;
  }

  /** Some call has received a successful `initialize` response with result `r`. */
  ghost predicate Settled(s: State, r: Raw) {
    s.b.initResult == Some(r) || exists c :: StoresResult(s, c, r)
  }

  ghost predicate StoresResult(s: State, c: nat, r: Raw) {
    c in s.calls && s.calls[c].pc.Storing? && s.calls[c].pc.msg.result == Some(r)
  }

  /** An `initialize` call that got `r` without the server, or may still get only that. */
  predicate ServedFrom(pc: Pc, r: Raw) {
    match pc
    case Entered => true
    case Queued => true
    case Holding => true
    case Releasing(out) => out == Replayed(r) || out == Cancelled || out == Closed
    case Finished(out) => out == Replayed(r) || out == Cancelled || out == Closed
    case _ => false
  }

  lemma SettledHolder(s: State, r: Raw, c: nat)
    requires Inv(s) && Settled(s, r) && c in s.calls && s.calls[c].methodName == INITIALIZE
    requires HasWriteAhead(s.calls[c].pc)
    ensures StoresResult(s, c, r)
  {
    assert InitOk(s.b, s.calls[c]);
    var d :| StoresResult(s, d, r);
  }

  lemma SettledCallStep(s: State, c: nat, a: Action, r: Raw)
    requires Inv(s) && Settled(s, r) && Next(s, Step(c, a)).Some?
    ensures Settled(Next(s, Step(c, a)).value, r)
    ensures Handshakes(Next(s, Step(c, a)).value.b.written) == Handshakes(s.b.written)
  {
    CallStep(s.b, c, s.calls[c], a);
    if HasWriteAhead(s.calls[c].pc) && s.calls[c].methodName == INITIALIZE { SettledHolder(s, r, c); }
    CallWrites(s.b, c, s.calls[c], a);
    SettledCallStays(s, c, a, r);
  }

  lemma CallWrites(b: Session, c: nat, k: Call, a: Action)
    requires CallNext(b, c, k, a).Some?
    requires HasWriteAhead(k.pc) && k.methodName == INITIALIZE ==> k.pc.Storing?
    ensures Handshakes(CallNext(b, c, k, a).value.0.written) == Handshakes(b.written)
  {
    HandshakesAppend(b.written, Request(k.id, k.methodName));
  }

  lemma SettledCallStays(s: State, c: nat, a: Action, r: Raw)
    requires Inv(s) && Settled(s, r) && Next(s, Step(c, a)).Some?
    requires HasWriteAhead(s.calls[c].pc) && s.calls[c].methodName == INITIALIZE ==> StoresResult(s, c, r)
    ensures Settled(Next(s, Step(c, a)).value, r)
  {
    var t, k := Next(s, Step(c, a)).value, s.calls[c];
    assert CallOk(s.b, k) && InitOk(s.b, k);
    OnlyStoreCaches(s.b, c, k, a);
    if s.b.initResult != Some(r) {
      var d :| StoresResult(s, d, r);
      if c != d {
        assert Apart(k, s.calls[d]);
        assert StoresResult(t, d, r);
      } else {
        StorerStep(s.b, c, k, a);
        assert t.b.initResult == Some(r) || StoresResult(t, c, r);
      }
    }
  }

  /** A call about to store keeps its message until it has. */
  lemma StorerStep(b: Session, c: nat, k: Call, a: Action)
    requires k.pc.Storing? && CallNext(b, c, k, a).Some?
    ensures var (b', k') := CallNext(b, c, k, a).value;
            k'.pc == k.pc || b'.initResult == k.pc.msg.result
  {
  }

  lemma SettledFrame(s: State, t: State, r: Raw)
    requires Settled(s, r) && t.b.initResult == s.b.initResult
    requires forall c | c in s.calls :: c in t.calls && t.calls[c].pc == s.calls[c].pc
    ensures Settled(t, r)
  {
    if s.b.initResult != Some(r) {
      var d :| StoresResult(s, d, r);
      assert StoresResult(t, d, r);
    }
  }

  /** Everything but a call's own step leaves the handshake and the calls' positions alone. */
  ghost predicate Aside(s: State, t: State) {
    && t.b.initResult == s.b.initResult
    && (forall c | c in s.calls ::
          c in t.calls && t.calls[c].pc == s.calls[c].pc && t.calls[c].methodName == s.calls[c].methodName)
    && (t.b.written == s.b.written
        || exists l: Line :: !l.Request? && t.b.written == s.b.written + [l])
  }

  lemma StepsAside(s: State, e: Event)
    requires Next(s, e).Some? && !e.Step?
    ensures Aside(s, Next(s, e).value)
  {
  }

  lemma SettledStep(s: State, e: Event, r: Raw)
    requires Inv(s) && Settled(s, r) && Next(s, e).Some?
    ensures Settled(Next(s, e).value, r)
    ensures Handshakes(Next(s, e).value.b.written) == Handshakes(s.b.written)
  {
    if e.Step? {
      SettledCallStep(s, e.c, e.a, r);
    } else {
      StepsAside(s, e);
      SettledAside(s, Next(s, e).value, r);
    }
  }

  lemma SettledAside(s: State, t: State, r: Raw)
    requires Settled(s, r) && Aside(s, t)
    ensures Settled(t, r) && Handshakes(t.b.written) == Handshakes(s.b.written)
  {
    SettledFrame(s, t, r);
    if t.b.written != s.b.written {
      var l: Line :| !l.Request? && t.b.written == s.b.written + [l];
      HandshakesAppend(s.b.written, l);
    }
  }

  lemma ServedCallStep(s: State, c: nat, a: Action, r: Raw)
    requires Inv(s) && Settled(s, r) && Next(s, Step(c, a)).Some?
    requires s.calls[c].methodName == INITIALIZE && ServedFrom(s.calls[c].pc, r)
    ensures ServedFrom(Next(s, Step(c, a)).value.calls[c].pc, r)
  {
    var k := s.calls[c];
    if s.b.initResult != Some(r) {
      var d :| StoresResult(s, d, r);
      assert Apart(k, s.calls[d]);
      assert InitOk(s.b, s.calls[d]);
    }
  }

  lemma ServedStep(s: State, e: Event, r: Raw, c: nat)
    requires Inv(s) && Settled(s, r) && Next(s, e).Some?
    requires c in Next(s, e).value.calls && Next(s, e).value.calls[c].methodName == INITIALIZE
    requires c in s.calls ==> ServedFrom(s.calls[c].pc, r)
    ensures ServedFrom(Next(s, e).value.calls[c].pc, r)
  {
    if c in s.calls {
      CallSurvivesStep(s, e, c);
      if e.Step? && e.c == c {
        ServedCallStep(s, c, e.a, r);
      } else if !e.Step? {
        StepsAside(s, e);
      }
    }
  }

  lemma {:induction false} SettledRun(s: State, es: seq<Event>, r: Raw)
    requires Inv(s) && Settled(s, r) && Run(s, es).Some?
    ensures Settled(Run(s, es).value, r)
    ensures Handshakes(Run(s, es).value.b.written) == Handshakes(s.b.written)
    decreases |es|
  {
    if es != [] {
      SettledStep(s, es[0], r);
      NextKeepsInv(s, es[0]);
      SettledRun(Next(s, es[0]).value, es[1..], r);
    }
  }

  lemma {:induction false} ServedRun(s: State, es: seq<Event>, r: Raw, c: nat)
    requires Inv(s) && Settled(s, r) && Run(s, es).Some?
    requires c in Run(s, es).value.calls && Run(s, es).value.calls[c].methodName == INITIALIZE
    requires c in s.calls ==> ServedFrom(s.calls[c].pc, r)
    ensures ServedFrom(Run(s, es).value.calls[c].pc, r)
    decreases |es|
  {
    if es != [] {
      var t := Next(s, es[0]).value;
      SettledStep(s, es[0], r);
      NextKeepsInv(s, es[0]);
      if c in t.calls {
        CallSurvives(t, es[1..], c);
        ServedStep(s, es[0], r, c);
      }
      ServedRun(t, es[1..], r, c);
    }
  }

  lemma CallSurvivesStep(s: State, e: Event, c: nat)
    requires Inv(s) && c in s.calls && Next(s, e).Some?
    ensures c in Next(s, e).value.calls && Next(s, e).value.calls[c].methodName == s.calls[c].methodName
  {
    if e.Step? {
      CallStep(s.b, e.c, s.calls[e.c], e.a);
    } else {
      StepsAside(s, e);
    }
  }

  lemma {:induction false} CallSurvives(s: State, es: seq<Event>, c: nat)
    requires Inv(s) && c in s.calls && Run(s, es).Some?
    ensures c in Run(s, es).value.calls && Run(s, es).value.calls[c].methodName == s.calls[c].methodName
    decreases |es|
  {
    if es != [] {
      CallSurvivesStep(s, es[0], c);
      NextKeepsInv(s, es[0]);
      CallSurvives(Next(s, es[0]).value, es[1..], c);
    }
  }

  /** Once some call has received an `initialize` response that carries a result and no error,
      no further `initialize` request is ever written, the cached result never changes, and every
      `initialize` that has not yet been written, queued ones included, is answered with that result. */
  lemma InitializeSettles(s: State, c: nat, m: Message, es: seq<Event>)
    requires Reachable(s) && c in s.calls && s.calls[c].methodName == INITIALIZE
    requires Handed(s.calls[c].pc) == Some(m) && m.error == None && m.result.Some?
    requires Run(s, es).Some?
    ensures var t := Run(s, es).value;
            && Handshakes(t.b.written) == Handshakes(s.b.written)
            && Settled(t, m.result.value)
            && (forall d | d in t.calls && t.calls[d].methodName == INITIALIZE
                   && (d in s.calls ==> s.calls[d].pc.Entered? || s.calls[d].pc.Queued? || s.calls[d].pc.Holding?) ::
                  ServedFrom(t.calls[d].pc, m.result.value))
  {
    ReachableInv(s);
    var r, t := m.result.value, Run(s, es).value;
    assert InitOk(s.b, s.calls[c]);
    assert Settled(s, r) by {
      assert s.calls[c].pc.Storing? ==> StoresResult(s, c, r);
    }
    SettledRun(s, es, r);
    forall d | d in t.calls && t.calls[d].methodName == INITIALIZE
           && (d in s.calls ==> s.calls[d].pc.Entered? || s.calls[d].pc.Queued? || s.calls[d].pc.Holding?)
      ensures ServedFrom(t.calls[d].pc, r)
    {
      ServedRun(s, es, r, d);
    }
  }

  lemma {:induction false} RunOneMore(s: State, es: seq<Event>, e: Event)
    requires Run(s, es).Some?
    ensures Run(s, es + [e]) == Next(Run(s, es).value, e)
    decreases |es|
  {
    if es == [] {
      assert es + [e] == [e];
    } else {
      assert (es + [e])[1..] == es[1..] + [e];
      RunOneMore(Next(s, es[0]).value, es[1..], e);
    }
  }

  // ---------------------------------------------------------------- the object

  /** The bridge object: its shared fields, the goroutines' own variables, and both pipes.
      Each method is one section between blocking points. */
  class Bridge {
    var sem: bool
    var nextID: int
    var pending: map<int, nat>
    var initResult: Option<Raw>
    var initialized: bool
    var done: bool
    var reader: Reader
    var calls: map<nat, Call>
    var notes: map<nat, Note>
    var written: seq<Line>
    var received: seq<Message>

    ghost function Shared(): Session
      reads this
    {
      Session(sem, nextID, pending, initResult, initialized, done, written, received)
    }

    ghost function View(): State
      reads this
    {
      State(Shared(), reader, calls, notes)
    }

    constructor ()
      ensures View() == START
      ensures Reachable(View())
    {
      sem, nextID, pending := false, 0, map[];
      initResult, initialized, done := None, false, false;
      reader, calls, notes := Reading, map[], map[];
      written, received := [], [];
      new;
      assert Run(START, []) == Some(View());
    }

    method CachedInit(methodName: string) returns (r: Option<Raw>)
      ensures r == Cached(Shared(), methodName)
    {
      if methodName != INITIALIZE {
        return None;
      }
      r := initResult;
    }

    /** Route one server message; a response found in `pending` leaves the reader about to send it. */
    method Dispatch(m: Message, ok: bool)
      requires reader.Reading?
      modifies this`received, this`written, this`pending, this`reader
      ensures (Shared(), reader) == Routed(old(Shared()), m, ok)
    {
      received := received + [m];
      if m.methodName != "" && m.HasId() {
        if ok {
          written := written + [Reply(m.id, m.methodName == "ping")];
        }
      } else if m.methodName == "" {
        var id := m.IdValue();
        if id.Some? && id.value in pending {
          var c := pending[id.value];
          pending := pending - {id.value};
          reader := Delivering(c, m);
        }
      }
    }

    method Advance(c: nat, a: Action) returns (ok: bool)
      requires c in calls
      modifies this
      ensures notes == old(notes) && reader == old(reader)
      ensures var r := CallNext(old(Shared()), c, old(calls[c]), a);
              && ok == r.Some?
              && Shared() == (if ok then r.value.0 else old(Shared()))
              && calls == (if ok then old(calls)[c := r.value.1] else old(calls))
    {
      if a.Hangup? || a.Probe? || a.Acquire? || a.LeaveQueue? || a.Recheck? || a.Store? || a.Release? {
        ok := Queue(c, a);
      } else {
        ok := Ask(c, a);
      }
    }

    /** Coming, waiting for the session, looking at the cache, and leaving. */
    method Queue(c: nat, a: Action) returns (ok: bool)
      requires a.Hangup? || a.Probe? || a.Acquire? || a.LeaveQueue? || a.Recheck? || a.Store? || a.Release?
      requires c in calls
      modifies this
      ensures notes == old(notes) && reader == old(reader)
      ensures var r := CallNext(old(Shared()), c, old(calls[c]), a);
              && ok == r.Some?
              && Shared() == (if ok then r.value.0 else old(Shared()))
              && calls == (if ok then old(calls)[c := r.value.1] else old(calls))
    {
      var k := calls[c];
      ok := true;
      match a {
        case Hangup => k := k.(cancelled := true);
        case Probe =>
          if !k.pc.Entered? { return false; }
          var r := CachedInit(k.methodName);
          k := k.(pc := if r.Some? then Finished(Replayed(r.value)) else Queued);
        case Acquire =>
          if !k.pc.Queued? || sem { return false; }
          sem := true;
          k := k.(pc := Holding);
        case LeaveQueue(closed) =>
          if !k.pc.Queued? || !(if closed then done else k.cancelled) { return false; }
          k := k.(pc := Finished(if closed then Closed else Cancelled));
        case Recheck =>
          if !k.pc.Holding? { return false; }
          var r := CachedInit(k.methodName);
          k := k.(pc := if r.Some? then Releasing(Replayed(r.value)) else Numbered);
        case Store =>
          if !k.pc.Storing? { return false; }
          initResult := k.pc.msg.result;
          k := k.(pc := Releasing(Replied(k.pc.msg)));
        case Release =>
          if !k.pc.Releasing? { return false; }
          sem := false;
          k := k.(pc := Finished(k.pc.out));
      }
      calls := calls[c := k];
    }

    /** The request itself: its id, its place in `pending`, the write and the wait. */
    method Ask(c: nat, a: Action) returns (ok: bool)
      requires a.TakeId? || a.Register? || a.Write? || a.Receive? || a.Abandon? || a.Forget?
      requires c in calls
      modifies this
      ensures notes == old(notes) && reader == old(reader)
      ensures var r := CallNext(old(Shared()), c, old(calls[c]), a);
              && ok == r.Some?
              && Shared() == (if ok then r.value.0 else old(Shared()))
              && calls == (if ok then old(calls)[c := r.value.1] else old(calls))
    {
      var k := calls[c];
      ok := true;
      match a {
        case TakeId =>
          if !k.pc.Numbered? || k.id != 0 { return false; }
          nextID := nextID + 1;
          k := k.(id := nextID);
        case Register =>
          if !k.pc.Numbered? || k.id == 0 { return false; }
          pending := pending[k.id := c];
          k := k.(pc := Registered, since := |received|);
        case Write(sent) =>
          if !k.pc.Registered? { return false; }
          if sent {
            written := written + [Request(k.id, k.methodName)];
            k := k.(pc := Awaiting);
          } else {
            k := k.(pc := Forgetting(WriteFailed));
          }
        case Receive =>
          if !k.pc.Awaiting? || k.ch == [] { return false; }
          var m := k.ch[0];
          var stores := k.methodName == INITIALIZE && m.error == None;
          k := k.(ch := k.ch[1..], pc := if stores then Storing(m) else Releasing(Replied(m)));
        case Abandon(closed) =>
          if !k.pc.Awaiting? || !(if closed then done else k.cancelled) { return false; }
          k := k.(pc := Forgetting(if closed then Closed else Cancelled));
        case Forget =>
          if !k.pc.Forgetting? { return false; }
          pending := pending - {k.id};
          k := k.(pc := Releasing(k.pc.why));
      }
      calls := calls[c := k];
    }

    method Forward(n: nat, e: Event) returns (ok: bool)
      requires n in notes && (e == Mark(n) || e == Check(n) || (e.WriteNote? && e.n == n))
      modifies this`initialized, this`written, this`notes
      ensures ok == Next(old(View()), e).Some?
      ensures View() == (if ok then Next(old(View()), e).value else old(View()))
    {
      var k := notes[n];
      if e.Mark? {
        if !k.pc.Fresh? { return false; }
        var drop := k.methodName == CANCELLED;
        if k.methodName == INITIALIZED {
          drop := initialized;
          initialized := true;
        }
        k := k.(pc := if drop then Dropped else WriteBound);
      } else if e.Check? {
        if !k.pc.WriteBound? { return false; }
        k := k.(pc := if done then Dropped else Checked);
      } else {
        if !k.pc.Checked? { return false; }
        if e.ok {
          written := written + [Notification(k.methodName)];
          k := k.(pc := Forwarded);
        } else {
          k := k.(pc := Dropped);
        }
      }
      notes := notes[n := k];
      ok := true;
    }

    method Perform(e: Event) returns (ok: bool)
      modifies this
      ensures ok == Next(old(View()), e).Some?
      ensures View() == (if ok then Next(old(View()), e).value else old(View()))
    {
      match e {
        case Arrive(c, m) =>
          ok := c !in calls;
          if ok { calls := calls[c := Call(m, Entered, 0, [], false, 0, 0)]; }
        case Step(c, a) =>
          if c !in calls { return false; }
          ok := Advance(c, a);
        case Notify(n, m) =>
          ok := n !in notes;
          if ok { notes := notes[n := Note(m, Fresh)]; }
        case Mark(n) =>
          if n !in notes { return false; }
          ok := Forward(n, e);
        case Check(n) =>
          if n !in notes { return false; }
          ok := Forward(n, e);
        case WriteNote(n, _) =>
          if n !in notes { return false; }
          ok := Forward(n, e);
        case Read(m, replied) =>
          ok := reader.Reading? && !done;
          if ok { Dispatch(m, replied); }
        case Deliver =>
          ok := reader.Delivering? && reader.to in calls && calls[reader.to].ch == [];
          if ok {
            var k := calls[reader.to];
            calls := calls[reader.to := k.(ch := [reader.msg], sent := k.sent + 1)];
            reader := Reading;
          }
        case Eof =>
          ok := reader.Reading? && !done;
          if ok { done := true; }
      }
    }

    /** Any schedule keeps the object inside the reachable states, so every theorem above holds of it. */
    method Serve(es: seq<Event>) returns (n: nat)
      requires Reachable(View())
      modifies this
      ensures n <= |es| && Run(old(View()), es[..n]) == Some(View())
      ensures n < |es| ==> Next(View(), es[n]) == None
      ensures Reachable(View())
    {
      n := 0;
      ghost var before :| Run(START, before) == Some(View());
      while n < |es|
        invariant n <= |es| && Run(old(View()), es[..n]) == Some(View())
        invariant Run(START, before) == Some(View())
      {
        assert es[..n + 1] == es[..n] + [es[n]];
        RunOneMore(old(View()), es[..n], es[n]);
        RunOneMore(START, before, es[n]);
        var ok := Perform(es[n]);
        if !ok {
          return;
        }
        before := before + [es[n]];
        n := n + 1;
      }
    }
  }
}
