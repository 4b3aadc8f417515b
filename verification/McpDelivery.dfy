/** What the bridge delivers (internal/mcpbridge/bridge.go): requests are written, answers reach their callers,
    notifications go through, the server's own requests are answered, and the session always comes free again. */
module McpDelivery {
  import opened Options
  import opened McpBridge

  // ---------------------------------------------------------------- no answer is lost

  /** The call is past registering and not yet past its wait. */
  predicate Waits(pc: Pc) {
    pc.Registered? || pc.Awaiting?
  }

  /** Where a waiting call's answer can still come from: its id is known to the reader, or the answer is on its way,
      or already in the channel. */
  predicate Expected(s: State, c: nat)
    requires c in s.calls
  {
    var k := s.calls[c];
    Waits(k.pc) ==>
      if k.sent == 0 then (k.id in s.b.pending && s.b.pending[k.id] == c) || (s.reader.Delivering? && s.reader.to == c)
      else k.ch != []
  }

  ghost predicate AllExpected(s: State) {
    forall c | c in s.calls :: Expected(s, c)
  }

  lemma OwnStepExpects(s: State, c: nat, a: Action)
    requires CallsOk(s) && Next(s, Step(c, a)).Some? && Expected(s, c)
    ensures Expected(Next(s, Step(c, a)).value, c)
  {
    assert CallOk(s.b, s.calls[c]);
    WaitingStep(s.b, c, s.calls[c], a);
  }

  /** A call's own step brings it to wait with its id pending, or leaves its wait as it was. */
  lemma WaitingStep(b: Session, c: nat, k: Call, a: Action)
    requires CallOk(b, k) && CallNext(b, c, k, a).Some?
    ensures var (b', k') := CallNext(b, c, k, a).value;
            Waits(k'.pc) ==>
              if Waits(k.pc) then k'.id == k.id && k'.sent == k.sent && k'.ch == k.ch && b'.pending == b.pending
              else k'.sent == 0 && k'.id in b'.pending && b'.pending[k'.id] == c
  {
  }

  lemma OtherStepExpects(s: State, c: nat, a: Action, d: nat)
    requires CallsOk(s) && Next(s, Step(c, a)).Some? && d in s.calls && d != c && Expected(s, d)
    ensures Expected(Next(s, Step(c, a)).value, d)
  {
    assert CallOk(s.b, s.calls[d]) && CallOk(s.b, s.calls[c]) && InitOk(s.b, s.calls[c]);
    assert Apart(s.calls[c], s.calls[d]);
    CallStepGuarantee(s.b, c, s.calls[c], a);
  }

  lemma ReadExpects(s: State, m: Message, ok: bool, d: nat)
    requires CallsOk(s) && Next(s, Read(m, ok)).Some? && d in s.calls && Expected(s, d)
    ensures Expected(Next(s, Read(m, ok)).value, d)
  {
  }

  lemma DeliverExpects(s: State, d: nat)
    requires CallsOk(s) && Next(s, Deliver).Some? && d in s.calls && Expected(s, d)
    ensures Expected(Next(s, Deliver).value, d)
  {
  }

  lemma NextExpects(s: State, e: Event)
    requires Inv(s) && AllExpected(s) && Next(s, e).Some?
    ensures AllExpected(Next(s, e).value)
  {
    var t := Next(s, e).value;
    forall d | d in t.calls ensures Expected(t, d) {
      match e
      case Step(c, a) => if d == c { OwnStepExpects(s, c, a); } else { OtherStepExpects(s, c, a, d); }
      case Read(m, ok) => ReadExpects(s, m, ok, d);
      case Deliver => DeliverExpects(s, d);
      case Arrive(c, _) => if d != c { assert Expected(s, d); }
      case _ => assert Expected(s, d);
    }
  }

  lemma {:induction false} RunExpects(s: State, es: seq<Event>)
    requires Inv(s) && AllExpected(s) && Run(s, es).Some?
    ensures AllExpected(Run(s, es).value)
    decreases |es|
  {
    if es != [] {
      NextExpects(s, es[0]);
      NextKeepsInv(s, es[0]);
      RunExpects(Next(s, es[0]).value, es[1..]);
    }
  }

  /** In every reachable state a call that waits has its id in `pending`, or the reader is delivering to it, or its
      answer is in its channel. */
  lemma AnswerCanCome(s: State, c: nat)
    requires Reachable(s) && c in s.calls && Waits(s.calls[c].pc)
    ensures var k := s.calls[c];
            && (k.sent == 0 ==>
                  (k.id in s.b.pending && s.b.pending[k.id] == c) || (s.reader.Delivering? && s.reader.to == c))
            && (k.sent > 0 ==> |k.ch| == 1)
  {
    var es :| Run(START, es) == Some(s);
    RunExpects(START, es);
    ReachableInv(s);
    assert Expected(s, c);
    assert CallOk(s.b, s.calls[c]);
  }

  lemma Goes(s: State, es: seq<Event>, t: State, e: Event, u: State)
    requires Run(s, es) == Some(t) && Next(t, e) == Some(u)
    ensures Run(s, es + [e]) == Some(u)
  {
    RunOneMore(s, es, e);
  }

  lemma Begins(s: State, e: Event, t: State)
    requires Next(s, e) == Some(t)
    ensures Run(s, [e]) == Some(t)
  {
    assert [e][1..] == [];
  }

  lemma {:induction false} RunBoth(s: State, es: seq<Event>, fs: seq<Event>)
    requires Run(s, es).Some?
    ensures Run(s, es + fs) == Run(Run(s, es).value, fs)
    decreases |es|
  {
    if es == [] {
      assert es + fs == fs;
    } else {
      assert (es + fs)[1..] == es[1..] + fs;
      RunBoth(Next(s, es[0]).value, es[1..], fs);
    }
  }

  /** A step of a call, as it changes the whole. */
  lemma Moves(s: State, c: nat, a: Action, b: Session, k: Call)
    requires c in s.calls && CallNext(s.b, c, s.calls[c], a) == Some((b, k))
    ensures Next(s, Step(c, a)) == Some(s.(b := b, calls := s.calls[c := k]))
  {
  }

  /** The events from the server's answer to the channel, and from there to the caller. */
  function Reaching(m: Message, ok: bool): seq<Event> {
    [Read(m, ok)] + [Deliver]
  }

  function Taking(c: nat, stores: bool): seq<Event> {
    (if stores then [Step(c, Receive)] + [Step(c, Store)] else [Step(c, Receive)]) + [Step(c, Release)]
  }

  lemma ReplyReaches(s: State, c: nat, m: Message, ok: bool)
    requires CallsOk(s) && c in s.calls && s.calls[c].pc.Awaiting? && s.calls[c].sent == 0 && Expected(s, c)
    requires s.reader.Reading? && !s.b.done && m.methodName == "" && m.id == Num(s.calls[c].id)
    ensures var t := Run(s, Reaching(m, ok));
            && t.Some? && c in t.value.calls && t.value.calls[c] == s.calls[c].(ch := [m], sent := 1)
            && s.calls[c].id !in t.value.b.pending && t.value.b.initResult == s.b.initResult
  {
    var k := s.calls[c];
    assert CallOk(s.b, k);
    var b1 := s.b.(received := s.b.received + [m], pending := s.b.pending - {k.id});
    var s1 := s.(b := b1, reader := Delivering(c, m));
    RoutesTo(s, m, ok, k.id);
    Begins(s, Read(m, ok), s1);
    Delivers(s1, [Read(m, ok)], s, c, m);
  }

  lemma RoutesTo(s: State, m: Message, ok: bool, id: int)
    requires s.reader.Reading? && !s.b.done && m.methodName == "" && m.id == Num(id) && id in s.b.pending
    ensures Next(s, Read(m, ok))
            == Some(s.(b := s.b.(received := s.b.received + [m], pending := s.b.pending - {id}),
                       reader := Delivering(s.b.pending[id], m)))
  {
  }

  lemma Delivers(s: State, es: seq<Event>, start: State, c: nat, m: Message)
    requires Run(start, es) == Some(s) && s.reader == Delivering(c, m) && c in s.calls && s.calls[c].ch == []
    ensures Run(start, es + [Deliver])
            == Some(s.(reader := Reading,
                       calls := s.calls[c := s.calls[c].(ch := [m], sent := s.calls[c].sent + 1)]))
  {
    RunOneMore(start, es, Deliver);
  }

  lemma ReplyTaken(s: State, c: nat, m: Message)
    requires c in s.calls && s.calls[c].pc.Awaiting? && s.calls[c].ch == [m]
    ensures var stores := s.calls[c].methodName == "initialize" && m.error == None;
            var t := Run(s, Taking(c, stores));
            && t.Some? && c in t.value.calls && t.value.calls[c].pc == Finished(Replied(m))
            && t.value.b == s.b.(sem := false, initResult := if stores then m.result else s.b.initResult)
  {
    var k, stores := s.calls[c], s.calls[c].methodName == "initialize" && m.error == None;
    var k1 := k.(ch := [], pc := if stores then Storing(m) else Releasing(Replied(m)));
    var k2, b2 := k1.(pc := Releasing(Replied(m))), s.b.(initResult := if stores then m.result else s.b.initResult);
    var s1 := s.(calls := s.calls[c := k1]);
    var s2 := s.(b := b2, calls := s.calls[c := k2]);
    assert k.ch[1..] == [];
    Moves(s, c, Receive, s.b, k1);
    Begins(s, Step(c, Receive), s1);
    if stores {
      Moves(s1, c, Store, b2, k2);
      assert s1.calls[c := k2] == s.calls[c := k2];
      Goes(s, [Step(c, Receive)], s1, Step(c, Store), s2);
    } else {
      assert s1 == s2;
    }
    Releases(s, if stores then [Step(c, Receive)] + [Step(c, Store)] else [Step(c, Receive)], s2, c);
  }

  lemma Releases(s: State, es: seq<Event>, t: State, c: nat)
    requires Run(s, es) == Some(t) && c in t.calls && t.calls[c].pc.Releasing?
    ensures var u := Run(s, es + [Step(c, Release)]);
            && u.Some? && c in u.value.calls && u.value.calls[c].pc == Finished(t.calls[c].pc.out)
            && u.value.b == t.b.(sem := false)
  {
    var k := t.calls[c].(pc := Finished(t.calls[c].pc.out));
    Moves(t, c, Release, t.b.(sem := false), k);
    Goes(s, es, t, Step(c, Release), t.(b := t.b.(sem := false), calls := t.calls[c := k]));
  }

  /** What the server sends under a waiting call's id is what that call answers: from every reachable state in
      which the reader is between messages, routing, delivering, receiving and releasing can happen, and end with
      that very message and a free session; a handshake's result is kept on the way. */
  lemma ReplyArrives(s: State, c: nat, m: Message, ok: bool)
    requires Reachable(s) && c in s.calls && s.calls[c].pc.Awaiting? && s.calls[c].sent == 0
    requires s.reader.Reading? && !s.b.done && m.methodName == "" && m.id == Num(s.calls[c].id)
    ensures var stores := s.calls[c].methodName == "initialize" && m.error == None;
            var t := Run(s, Reaching(m, ok) + Taking(c, stores));
            && t.Some? && c in t.value.calls && t.value.calls[c].pc == Finished(Replied(m))
            && !t.value.b.sem && s.calls[c].id !in t.value.b.pending
            && t.value.b.initResult == if stores then m.result else s.b.initResult
  {
    AnswerCanCome(s, c);
    ReachableInv(s);
    ReplyReaches(s, c, m, ok);
    var t := Run(s, Reaching(m, ok)).value;
    ReplyTaken(t, c, m);
    RunBoth(s, Reaching(m, ok), Taking(c, s.calls[c].methodName == "initialize" && m.error == None));
  }

  /** The answer `m` is on its way to the call, in its channel, or in its hands; or the call was given up. */
  predicate Kept(s: State, c: nat, m: Message) {
    && c in s.calls
    && var k := s.calls[c];
       || (Waits(k.pc) && ((s.reader == Delivering(c, m) && k.ch == []) || k.ch == [m]))
       || Handed(k.pc) == Some(m)
       || Settlement(k.pc) in {Some(Outcome.Cancelled), Some(Outcome.Closed), Some(WriteFailed)}
  }

  lemma KeptStep(s: State, e: Event, c: nat, m: Message)
    requires CallsOk(s) && Kept(s, c, m) && Next(s, e).Some?
    ensures Kept(Next(s, e).value, c, m)
  {
    assert CallOk(s.b, s.calls[c]);
    if e.Step? && e.c == c { KeptOwn(s, e.a, c, m); } else { KeptAside(s, e, c, m); }
  }

  lemma KeptOwn(s: State, a: Action, c: nat, m: Message)
    requires Kept(s, c, m) && CallOk(s.b, s.calls[c]) && Next(s, Step(c, a)).Some?
    ensures Kept(Next(s, Step(c, a)).value, c, m)
  {
  }

  lemma KeptAside(s: State, e: Event, c: nat, m: Message)
    requires Kept(s, c, m) && CallOk(s.b, s.calls[c]) && Next(s, e).Some? && !(e.Step? && e.c == c)
    ensures Kept(Next(s, e).value, c, m)
  {
  }

  /** Once the reader has a waiting call's answer, no order of events loses it or puts another in its place: the
      call ends with it unless it is cancelled, closed out, or could not be written. */
  lemma {:induction false} AnswerIsKept(s: State, es: seq<Event>, c: nat, m: Message)
    requires Inv(s) && Kept(s, c, m) && Run(s, es).Some?
    ensures Kept(Run(s, es).value, c, m)
    decreases |es|
  {
    if es != [] {
      KeptStep(s, es[0], c, m);
      NextKeepsInv(s, es[0]);
      AnswerIsKept(Next(s, es[0]).value, es[1..], c, m);
    }
  }

  // ---------------------------------------------------------------- every request is written, once

  /** How many request lines carry the id. */
  function Asked(log: seq<Line>, id: int): nat {
    if log == [] then 0
    else Asked(log[..|log|-1], id) + (if log[|log|-1].Request? && log[|log|-1].id == id then 1 else 0)
  }

  lemma AskedAppend(log: seq<Line>, l: Line, id: int)
    ensures Asked(log + [l], id) == Asked(log, id) + (if l.Request? && l.id == id then 1 else 0)
  {
    assert (log + [l])[..|log|] == log;
  }

  /** The call has got its request out. */
  predicate Wrote(k: Call) {
    k.id != 0
    && match k.pc
       case Awaiting => true
       case Storing(_) => true
       case Forgetting(why) => why != WriteFailed
       case Releasing(why) => why != WriteFailed
       case Finished(why) => why != WriteFailed
       case _ => false
  }

  ghost predicate Logged(b: Session, k: Call) {
    && Asked(b.written, k.id) == (if Wrote(k) then 1 else 0)
    && (Wrote(k) ==> Request(k.id, k.methodName) in b.written)
  }

  /** The request lines are those of the calls that have written. */
  ghost predicate LogOk(s: State) {
    && (forall id | id <= 0 || id > s.b.nextId :: Asked(s.b.written, id) == 0)
    && (forall c | c in s.calls :: Logged(s.b, s.calls[c]))
  }

  lemma StepLogs(s: State, c: nat, a: Action)
    requires CallsOk(s) && LogOk(s) && Next(s, Step(c, a)).Some?
    ensures LogOk(Next(s, Step(c, a)).value)
  {
    var t, k := Next(s, Step(c, a)).value, s.calls[c];
    assert CallOk(s.b, k) && Logged(s.b, k);
    StepLines(s.b, c, k, a);
    OwnLine(s.b, c, k, a);
    forall d | d in t.calls && d != c ensures Logged(t.b, t.calls[d]) {
      assert Apart(k, s.calls[d]) && Logged(s.b, s.calls[d]) && CallOk(s.b, s.calls[d]);
      OtherLine(s.b, t.b, k, s.calls[d]);
    }
  }

  /** At most one line more, and only under the call's own id. */
  lemma StepLines(b: Session, c: nat, k: Call, a: Action)
    requires CallOk(b, k) && CallNext(b, c, k, a).Some?
    ensures var b' := CallNext(b, c, k, a).value.0;
            && b.nextId <= b'.nextId
            && (b'.written == b.written || b'.written == b.written + [Request(k.id, k.methodName)])
            && (b'.written != b.written ==> 0 < k.id <= b.nextId)
            && forall id | id != k.id :: Asked(b'.written, id) == Asked(b.written, id)
  {
    forall id | id != k.id ensures Asked(CallNext(b, c, k, a).value.0.written, id) == Asked(b.written, id) {
      AskedAppend(b.written, Request(k.id, k.methodName), id);
    }
  }

  lemma OtherLine(b: Session, b': Session, k: Call, l: Call)
    requires Logged(b, l) && (k.id != 0 ==> k.id != l.id)
    requires b'.written == b.written || (k.id != 0 && b'.written == b.written + [Request(k.id, k.methodName)])
    ensures Logged(b', l)
  {
    AskedAppend(b.written, Request(k.id, k.methodName), l.id);
  }

  lemma OwnLine(b: Session, c: nat, k: Call, a: Action)
    requires CallOk(b, k) && Logged(b, k) && CallNext(b, c, k, a).Some?
    requires forall id | id <= 0 || id > b.nextId :: Asked(b.written, id) == 0
    ensures Logged(CallNext(b, c, k, a).value.0, CallNext(b, c, k, a).value.1)
  {
    if a == Write(true) {
      WriteLine(b, c, k);
    } else if a.TakeId? {
      NewIdLine(b, c, k);
    } else {
      SameLines(b, c, k, a);
    }
  }

  lemma WriteLine(b: Session, c: nat, k: Call)
    requires CallOk(b, k) && Logged(b, k) && CallNext(b, c, k, Write(true)).Some?
    ensures Logged(CallNext(b, c, k, Write(true)).value.0, CallNext(b, c, k, Write(true)).value.1)
  {
    AskedAppend(b.written, Request(k.id, k.methodName), k.id);
  }

  /** A new id has no line yet. */
  lemma NewIdLine(b: Session, c: nat, k: Call)
    requires Asked(b.written, b.nextId + 1) == 0 && CallNext(b, c, k, TakeId).Some?
    ensures Logged(CallNext(b, c, k, TakeId).value.0, CallNext(b, c, k, TakeId).value.1)
  {
  }

  /** Any other step keeps the lines, the id, and whether the request is out. */
  lemma SameLines(b: Session, c: nat, k: Call, a: Action)
    requires CallOk(b, k) && CallNext(b, c, k, a).Some? && a != Write(true) && !a.TakeId?
    ensures var (b', k') := CallNext(b, c, k, a).value;
            b'.written == b.written && k'.id == k.id && k'.methodName == k.methodName && Wrote(k') == Wrote(k)
  {
  }

  /** The rest of the bridge writes no request lines. */
  lemma AsideLogs(s: State, e: Event)
    requires Inv(s) && LogOk(s) && Next(s, e).Some? && !e.Step?
    ensures LogOk(Next(s, e).value)
  {
    var t := Next(s, e).value;
    StepsAside(s, e);
    AsideIds(s, e);
    forall id ensures Asked(t.b.written, id) == Asked(s.b.written, id) {
      if t.b.written != s.b.written {
        var l: Line :| !l.Request? && t.b.written == s.b.written + [l];
        AskedAppend(s.b.written, l, id);
      }
    }
    forall d | d in t.calls ensures Logged(t.b, t.calls[d]) {
      if d in s.calls { assert Logged(s.b, s.calls[d]); }
    }
  }

  lemma AsideIds(s: State, e: Event)
    requires Next(s, e).Some? && !e.Step?
    ensures var t := Next(s, e).value;
            && t.b.nextId == s.b.nextId && s.b.written <= t.b.written
            && forall d | d in t.calls ::
                 if d in s.calls then t.calls[d].id == s.calls[d].id else t.calls[d].id == 0 && !Wrote(t.calls[d])
  {
  }

  lemma {:induction false} RunLogs(s: State, es: seq<Event>)
    requires Inv(s) && LogOk(s) && Run(s, es).Some?
    ensures LogOk(Run(s, es).value)
    decreases |es|
  {
    if es != [] {
      if es[0].Step? { StepLogs(s, es[0].c, es[0].a); } else { AsideLogs(s, es[0]); }
      NextKeepsInv(s, es[0]);
      RunLogs(Next(s, es[0]).value, es[1..]);
    }
  }

  /** Over every run a call that waits for its answer, or was answered by the server, has written its request under
      its own id and method, once; one that could not write, or has not yet, never; and no other request line is
      written under that id. */
  lemma AskedExactlyOnce(s: State, c: nat)
    requires Reachable(s) && c in s.calls
    ensures var k := s.calls[c];
            && ((k.pc.Awaiting? || Handed(k.pc).Some?) ==>
                  Asked(s.b.written, k.id) == 1 && Request(k.id, k.methodName) in s.b.written)
            && (Settlement(k.pc) == Some(WriteFailed) || k.pc.Registered? ==> Asked(s.b.written, k.id) == 0)
  {
    var es :| Run(START, es) == Some(s);
    RunLogs(START, es);
    ReachableInv(s);
    assert Logged(s.b, s.calls[c]) && CallOk(s.b, s.calls[c]);
    if Handed(s.calls[c].pc).Some? { assert Genuine(s.b, s.calls[c], Handed(s.calls[c].pc).value); }
  }

  // ---------------------------------------------------------------- the session comes free

  ghost predicate HasHolder(s: State) {
    s.b.sem ==> exists c :: Held(s, c)
  }

  predicate Held(s: State, c: nat) {
    c in s.calls && Holds(s.calls[c].pc)
  }

  lemma NextHasHolder(s: State, e: Event)
    requires Inv(s) && HasHolder(s) && Next(s, e).Some?
    ensures HasHolder(Next(s, e).value)
  {
    var t := Next(s, e).value;
    if e.Step? {
      StepHasHolder(s, e.c, e.a);
    } else if t.b.sem {
      StepsAside(s, e);
      assert s.b.sem;
      var c :| Held(s, c);
      assert Held(t, c);
    }
  }

  lemma StepHasHolder(s: State, c: nat, a: Action)
    requires Inv(s) && HasHolder(s) && Next(s, Step(c, a)).Some?
    ensures HasHolder(Next(s, Step(c, a)).value)
  {
    var t := Next(s, Step(c, a)).value;
    if t.b.sem && !Holds(t.calls[c].pc) {
      StillTaken(s.b, c, s.calls[c], a);
      var d :| Held(s, d);
      assert Held(t, d);
    } else if t.b.sem {
      assert Held(t, c);
    }
  }

  /** A call that holds nothing after its step either frees the session or never held it. */
  lemma StillTaken(b: Session, c: nat, k: Call, a: Action)
    requires CallNext(b, c, k, a).Some? && CallNext(b, c, k, a).value.0.sem && !Holds(CallNext(b, c, k, a).value.1.pc)
    ensures b.sem && !Holds(k.pc)
  {
  }

  lemma {:induction false} RunHasHolder(s: State, es: seq<Event>)
    requires Inv(s) && HasHolder(s) && Run(s, es).Some?
    ensures HasHolder(Run(s, es).value)
    decreases |es|
  {
    if es != [] {
      NextHasHolder(s, es[0]);
      NextKeepsInv(s, es[0]);
      RunHasHolder(Next(s, es[0]).value, es[1..]);
    }
  }

  /** The session is taken exactly while some call holds it; as soon as none does, any queued call can go on. */
  lemma FreeExactly(s: State)
    requires Reachable(s)
    ensures s.b.sem <==> exists c :: Held(s, c)
    ensures !s.b.sem ==> forall c | c in s.calls && s.calls[c].pc.Queued? :: Next(s, Step(c, Acquire)).Some?
  {
    var es :| Run(START, es) == Some(s);
    RunHasHolder(START, es);
    ReachableInv(s);
    if c :| Held(s, c) { assert CallOk(s.b, s.calls[c]); }
  }

  // ---------------------------------------------------------------- giving up

  /** A call says "cancelled" only if its client went away, "closed" only after the server's end. */
  ghost predicate GaveUpOk(s: State) {
    forall c | c in s.calls ::
      && (Settlement(s.calls[c].pc) == Some(Outcome.Cancelled) ==> s.calls[c].cancelled)
      && (Settlement(s.calls[c].pc) == Some(Outcome.Closed) ==> s.b.done)
  }

  lemma NextGaveUp(s: State, e: Event)
    requires Inv(s) && GaveUpOk(s) && Next(s, e).Some?
    ensures GaveUpOk(Next(s, e).value)
  {
    if e.Step? {
      assert CallOk(s.b, s.calls[e.c]);
      OwnGaveUp(s.b, e.c, s.calls[e.c], e.a);
    } else {
      AsideGaveUp(s, e);
    }
  }

  lemma AsideGaveUp(s: State, e: Event)
    requires GaveUpOk(s) && Next(s, e).Some? && !e.Step?
    ensures GaveUpOk(Next(s, e).value)
  {
  }

  lemma OwnGaveUp(b: Session, c: nat, k: Call, a: Action)
    requires CallOk(b, k) && CallNext(b, c, k, a).Some?
    requires Settlement(k.pc) == Some(Outcome.Cancelled) ==> k.cancelled
    requires Settlement(k.pc) == Some(Outcome.Closed) ==> b.done
    ensures var (b', k') := CallNext(b, c, k, a).value;
            && (Settlement(k'.pc) == Some(Outcome.Cancelled) ==> k'.cancelled)
            && (Settlement(k'.pc) == Some(Outcome.Closed) ==> b'.done) && b'.done == b.done
  {
  }

  lemma {:induction false} GaveUpForReason(s: State, es: seq<Event>)
    requires Inv(s) && GaveUpOk(s) && Run(s, es).Some?
    ensures GaveUpOk(Run(s, es).value)
    decreases |es|
  {
    if es != [] {
      NextGaveUp(s, es[0]);
      NextKeepsInv(s, es[0]);
      GaveUpForReason(Next(s, es[0]).value, es[1..]);
    }
  }

  /** When the server's output ends every call can end, queued or waiting, and a client that goes away can always
      leave; a waiting one forgets its id and frees the session. */
  lemma CanGiveUp(s: State, c: nat, closed: bool)
    requires c in s.calls && (s.calls[c].pc.Queued? || s.calls[c].pc.Awaiting?)
    requires if closed then s.b.done else s.calls[c].cancelled
    ensures var es := if s.calls[c].pc.Queued? then [Step(c, LeaveQueue(closed))]
                      else [Step(c, Abandon(closed))] + [Step(c, Forget)] + [Step(c, Release)];
            var t := Run(s, es);
            && t.Some? && c in t.value.calls
            && t.value.calls[c].pc == Finished(if closed then Outcome.Closed else Outcome.Cancelled)
            && (s.calls[c].pc.Awaiting? ==> !t.value.b.sem && s.calls[c].id !in t.value.b.pending)
  {
    var k, why := s.calls[c], if closed then Outcome.Closed else Outcome.Cancelled;
    if k.pc.Queued? {
      Moves(s, c, LeaveQueue(closed), s.b, k.(pc := Finished(why)));
      Begins(s, Step(c, LeaveQueue(closed)), s.(calls := s.calls[c := k.(pc := Finished(why))]));
    } else {
      Abandons(s, c, closed, why);
    }
  }

  lemma Abandons(s: State, c: nat, closed: bool, why: Outcome)
    requires c in s.calls && s.calls[c].pc.Awaiting? && why == if closed then Outcome.Closed else Outcome.Cancelled
    requires if closed then s.b.done else s.calls[c].cancelled
    ensures var t := Run(s, [Step(c, Abandon(closed))] + [Step(c, Forget)] + [Step(c, Release)]);
            && t.Some? && c in t.value.calls && t.value.calls[c].pc == Finished(why)
            && !t.value.b.sem && s.calls[c].id !in t.value.b.pending
  {
    var k := s.calls[c];
    var k1, k2, b2 := k.(pc := Forgetting(why)), k.(pc := Releasing(why)), s.b.(pending := s.b.pending - {k.id});
    var s1, s2 := s.(calls := s.calls[c := k1]), s.(b := b2, calls := s.calls[c := k2]);
    Moves(s, c, Abandon(closed), s.b, k1);
    Begins(s, Step(c, Abandon(closed)), s1);
    Moves(s1, c, Forget, b2, k2);
    assert s1.calls[c := k2] == s.calls[c := k2];
    Goes(s, [Step(c, Abandon(closed))], s1, Step(c, Forget), s2);
    Releases(s, [Step(c, Abandon(closed))] + [Step(c, Forget)], s2, c);
  }

  /** The end of the server's output is seen whenever the reader is between messages. */
  lemma EndIsSeen(s: State)
    requires s.reader.Reading? && !s.b.done
    ensures Next(s, Eof).Some? && Next(s, Eof).value == s.(b := s.b.(done := true))
  {
  }

  /** After a handshake a new `initialize` is answered at once, whoever holds the session; nothing else is. */
  lemma ReplayAtOnce(s: State, c: nat, methodName: string, r: Raw)
    requires c !in s.calls && s.b.initResult == Some(r)
    ensures var t := Run(s, [Arrive(c, methodName)] + [Step(c, Probe)]);
            && t.Some? && c in t.value.calls && t.value.b == s.b
            && t.value.calls[c].pc == if methodName == "initialize" then Finished(Replayed(r)) else Queued
  {
    var k := Call(methodName, Entered, 0, [], false, 0, 0);
    var k1 := k.(pc := if methodName == "initialize" then Finished(Replayed(r)) else Queued);
    var s1 := s.(calls := s.calls[c := k]);
    Begins(s, Arrive(c, methodName), s1);
    Moves(s1, c, Probe, s.b, k1);
    Goes(s, [Arrive(c, methodName)], s1, Step(c, Probe), s1.(calls := s1.calls[c := k1]));
  }

  /** The events that bring a new request to the session, and to the server. */
  function Coming(c: nat, methodName: string): seq<Event> {
    [Arrive(c, methodName)] + [Step(c, Probe)] + [Step(c, Acquire)] + [Step(c, Recheck)]
  }

  function Going(c: nat): seq<Event> {
    [Step(c, TakeId)] + [Step(c, Register)] + [Step(c, Write(true))]
  }

  /** A request that finds the session free is registered and written under the next id. */
  lemma RequestGoesOut(s: State, c: nat, methodName: string)
    requires Reachable(s) && c !in s.calls && !s.b.sem && (methodName == "initialize" ==> s.b.initResult == None)
    ensures var t, id := Run(s, Coming(c, methodName) + Going(c)), s.b.nextId + 1;
            && t.Some? && c in t.value.calls && t.value.calls[c].pc.Awaiting? && t.value.calls[c].id == id
            && t.value.b.written == s.b.written + [Request(id, methodName)]
            && id in t.value.b.pending && t.value.b.pending[id] == c
  {
    ReachableInv(s);
    Comes(s, c, methodName);
    NumberedGoesOut(Run(s, Coming(c, methodName)).value, c);
    RunBoth(s, Coming(c, methodName), Going(c));
  }

  lemma Comes(s: State, c: nat, methodName: string)
    requires c !in s.calls && !s.b.sem && (methodName == "initialize" ==> s.b.initResult == None)
    ensures Run(s, Coming(c, methodName))
            == Some(s.(b := s.b.(sem := true),
                       calls := s.calls[c := Call(methodName, Numbered, 0, [], false, 0, 0)]))
  {
    var k := Call(methodName, Entered, 0, [], false, 0, 0);
    var taken := s.b.(sem := true);
    var s1, s2 := s.(calls := s.calls[c := k]), s.(calls := s.calls[c := k.(pc := Queued)]);
    var s3 := s.(b := taken, calls := s.calls[c := k.(pc := Holding)]);
    Begins(s, Arrive(c, methodName), s1);
    Moves(s1, c, Probe, s.b, k.(pc := Queued));
    assert s1.calls[c := k.(pc := Queued)] == s2.calls;
    Goes(s, [Arrive(c, methodName)], s1, Step(c, Probe), s2);
    Moves(s2, c, Acquire, taken, k.(pc := Holding));
    assert s2.calls[c := k.(pc := Holding)] == s3.calls;
    Goes(s, [Arrive(c, methodName)] + [Step(c, Probe)], s2, Step(c, Acquire), s3);
    Moves(s3, c, Recheck, taken, k.(pc := Numbered));
    assert s3.calls[c := k.(pc := Numbered)] == s.calls[c := k.(pc := Numbered)];
    Goes(s, [Arrive(c, methodName)] + [Step(c, Probe)] + [Step(c, Acquire)], s3, Step(c, Recheck),
         s.(b := taken, calls := s.calls[c := k.(pc := Numbered)]));
  }

  lemma NumberedGoesOut(s: State, c: nat)
    requires c in s.calls && s.calls[c].pc.Numbered? && s.calls[c].id == 0 && s.b.nextId + 1 != 0
    ensures var t, id := Run(s, Going(c)), s.b.nextId + 1;
            && t.Some? && c in t.value.calls && t.value.calls[c].pc.Awaiting? && t.value.calls[c].id == id
            && t.value.b.written == s.b.written + [Request(id, s.calls[c].methodName)]
            && id in t.value.b.pending && t.value.b.pending[id] == c
  {
    var id, k := s.b.nextId + 1, s.calls[c];
    var k1, b1 := k.(id := id), s.b.(nextId := id);
    var k2, b2 := k1.(pc := Registered, since := |s.b.received|), b1.(pending := s.b.pending[id := c]);
    var k3, b3 := k2.(pc := Awaiting), b2.(written := s.b.written + [Request(id, k.methodName)]);
    var s1, s2 := s.(b := b1, calls := s.calls[c := k1]), s.(b := b2, calls := s.calls[c := k2]);
    Moves(s, c, TakeId, b1, k1);
    Begins(s, Step(c, TakeId), s1);
    Moves(s1, c, Register, b2, k2);
    assert s1.calls[c := k2] == s2.calls;
    Goes(s, [Step(c, TakeId)], s1, Step(c, Register), s2);
    Moves(s2, c, Write(true), b3, k3);
    var s3 := s2.(b := b3, calls := s2.calls[c := k3]);
    Goes(s, [Step(c, TakeId)] + [Step(c, Register)], s2, Step(c, Write(true)), s3);
  }

  // ---------------------------------------------------------------- notifications and the server's own requests

  /** A notification goes to the server as it is, while the server lives: any but a cancellation, and
      `notifications/initialized` the first time. */
  lemma NoteIsForwarded(s: State, n: nat, methodName: string)
    requires n !in s.notes && !s.b.done && methodName != "notifications/cancelled"
    requires methodName == "notifications/initialized" ==> !s.b.initialized
    ensures var t := Run(s, [Notify(n, methodName)] + [Mark(n)] + [Check(n)] + [WriteNote(n, true)]);
            && t.Some? && t.value.b.written == s.b.written + [Notification(methodName)]
            && (methodName == "notifications/initialized" ==> t.value.b.initialized)
  {
    var k, b := Note(methodName, Fresh), s.b.(initialized := s.b.initialized || methodName == INITIALIZED);
    var s1 := s.(notes := s.notes[n := k]);
    var s2 := s1.(b := b, notes := s1.notes[n := k.(pc := WriteBound)]);
    var s3 := s2.(notes := s2.notes[n := k.(pc := Checked)]);
    var s4 := s3.(b := b.(written := b.written + [Notification(methodName)]),
                  notes := s3.notes[n := k.(pc := Forwarded)]);
    Begins(s, Notify(n, methodName), s1);
    Goes(s, [Notify(n, methodName)], s1, Mark(n), s2);
    Goes(s, [Notify(n, methodName)] + [Mark(n)], s2, Check(n), s3);
    Goes(s, [Notify(n, methodName)] + [Mark(n)] + [Check(n)], s3, WriteNote(n, true), s4);
  }

  /** The line of notification `n` has not gone out, nor been let through to go out. */
  predicate HeldBack(s: State, n: nat) {
    n in s.notes ==> s.notes[n].pc in {Fresh, WriteBound, Dropped}
  }

  /** Once the server's output has ended, a notification that has not passed its look at the end never goes out. */
  lemma {:induction false} NoneAfterEnd(s: State, n: nat, es: seq<Event>)
    requires s.b.done && HeldBack(s, n) && Run(s, es).Some?
    ensures Run(s, es).value.b.done && HeldBack(Run(s, es).value, n)
    decreases |es|
  {
    if es != [] {
      NextHoldsBack(s, n, es[0]);
      NoneAfterEnd(Next(s, es[0]).value, n, es[1..]);
    }
  }

  lemma NextHoldsBack(s: State, n: nat, e: Event)
    requires s.b.done && HeldBack(s, n) && Next(s, e).Some?
    ensures Next(s, e).value.b.done && HeldBack(Next(s, e).value, n)
  {
  }

  ghost predicate NoCancels(s: State) {
    && Notification("notifications/cancelled") !in s.b.written
    && forall n | n in s.notes && s.notes[n].methodName == "notifications/cancelled" ::
         s.notes[n].pc.Fresh? || s.notes[n].pc.Dropped?
  }

  /** A client's cancellation, which names the client's own ids, is never forwarded. */
  lemma {:induction false} CancelNeverForwarded(s: State, es: seq<Event>)
    requires NoCancels(s) && Run(s, es).Some?
    ensures NoCancels(Run(s, es).value)
    decreases |es|
  {
    if es != [] {
      NextNoCancels(s, es[0]);
      CancelNeverForwarded(Next(s, es[0]).value, es[1..]);
    }
  }

  lemma NextNoCancels(s: State, e: Event)
    requires NoCancels(s) && Next(s, e).Some?
    ensures NoCancels(Next(s, e).value)
  {
    match e
    case Step(c, a) =>
      if Next(s, e).value.b.written != s.b.written { StepLine(s.b, c, s.calls[c], a); }
    case Read(m, ok) => ReadLine(s.b, m, ok);
    case _ => NoteNoCancels(s, e);
  }

  lemma NoteNoCancels(s: State, e: Event)
    requires NoCancels(s) && Next(s, e).Some? && !e.Step? && !e.Read?
    ensures NoCancels(Next(s, e).value)
  {
  }

  /** The replies among the lines written. */
  function Replies(log: seq<Line>): seq<Line> {
    if log == [] then []
    else Replies(log[..|log|-1]) + (if log[|log|-1].Reply? then [log[|log|-1]] else [])
  }

  lemma RepliesAppend(log: seq<Line>, l: Line)
    ensures Replies(log + [l]) == Replies(log) + (if l.Reply? then [l] else [])
  {
    assert (log + [l])[..|log|] == log;
  }

  /** The replies the server's requests call for: to each its own id, a result for "ping", else an error. */
  function Owed(es: seq<Event>): seq<Line> {
    if es == [] then [] else OwedBy(es[0]) + Owed(es[1..])
  }

  function OwedBy(e: Event): seq<Line> {
    if e.Read? && e.ok && e.msg.methodName != "" && e.msg.id != Absent && e.msg.id != Null
    then [Reply(e.msg.id, e.msg.methodName == "ping")] else []
  }

  lemma NextReplies(s: State, e: Event)
    requires Next(s, e).Some?
    ensures Replies(Next(s, e).value.b.written) == Replies(s.b.written) + OwedBy(e)
  {
    var t := Next(s, e).value;
    if t.b.written != s.b.written {
      NextLine(s, e);
      RepliesAppend(s.b.written, t.b.written[|s.b.written|]);
    } else {
      NoLine(s, e);
    }
  }

  /** A line that is written is a reply exactly if one is owed, and then that one. */
  lemma NextLine(s: State, e: Event)
    requires Next(s, e).Some? && Next(s, e).value.b.written != s.b.written
    ensures var log := Next(s, e).value.b.written;
            && |log| == |s.b.written| + 1 && log == s.b.written + [log[|s.b.written|]]
            && (if log[|s.b.written|].Reply? then [log[|s.b.written|]] else []) == OwedBy(e)
  {
    match e
    case Step(c, a) => StepLine(s.b, c, s.calls[c], a);
    case Read(m, ok) => ReadLine(s.b, m, ok);
    case _ =>
  }

  lemma StepLine(b: Session, c: nat, k: Call, a: Action)
    requires CallNext(b, c, k, a).Some? && CallNext(b, c, k, a).value.0.written != b.written
    ensures CallNext(b, c, k, a).value.0.written == b.written + [Request(k.id, k.methodName)]
  {
  }

  lemma ReadLine(b: Session, m: Message, ok: bool)
    ensures Routed(b, m, ok).0.written == b.written + OwedBy(Read(m, ok))
  {
    assert b.written + [] == b.written;
  }

  lemma NoLine(s: State, e: Event)
    requires Next(s, e).Some? && Next(s, e).value.b.written == s.b.written
    ensures OwedBy(e) == []
  {
    if e.Read? {
      ReadLine(s.b, e.msg, e.ok);
      assert |s.b.written + OwedBy(e)| == |s.b.written| + |OwedBy(e)|;
    }
  }

  /** Over every run each request of the server's is answered once, in order, as far as the pipe takes it; and
      nothing else is. */
  lemma {:induction false} EveryRequestIsAnswered(s: State, es: seq<Event>)
    requires Run(s, es).Some?
    ensures Replies(Run(s, es).value.b.written) == Replies(s.b.written) + Owed(es)
    decreases |es|
  {
    if es != [] {
      NextReplies(s, es[0]);
      EveryRequestIsAnswered(Next(s, es[0]).value, es[1..]);
      assert Replies(s.b.written) + (OwedBy(es[0]) + Owed(es[1..]))
          == Replies(s.b.written) + OwedBy(es[0]) + Owed(es[1..]);
    }
  }
}
