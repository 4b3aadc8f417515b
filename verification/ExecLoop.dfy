/** Waiting for a command in a mission container (internal/sandboxd/docker.go, ExecEnv): the end of
    the output stream and the end of the process are independent events, and the loop needs both. */
module ExecLoop {
  import opened Options

  const GRACE := 2000              // execStreamGrace, in milliseconds
  const TIMEOUT_EXIT := 124        // timeoutExitCode

  datatype Result =
    | Code(code: int)              // that exit code, no error
    | TimedOut(code: int)
    | Cancelled
    | CopyFault

  /** What happens around the loop, and which ready channel the loop takes next. */
  datatype Event =
    | Exit(code: int)              // the process ends
    | StreamEnd(failed: bool)      // the copier ends and leaves its one message
    | Cancel                       // the caller's context ends
    | Expire                       // the client-side deadline passes
    | TakeCopied
    | TakeDone
    | TakeTick(now: int, up: bool) // one poll; `up` is whether the inspect call works

  datatype World = World(exit: Option<int>, ended: Option<bool>, closed: bool, cancelled: bool, expired: bool)

  /** ExecEnv's local variables; `leaving` is the wait for the copier after the context ended. */
  datatype Local = Local(copyDone: bool, execDone: bool, forcedClose: bool, code: int, graceUntil: int,
                         leaving: bool, result: Option<Result>)

  datatype State = State(w: World, v: Local)

  const START := State(World(None, None, false, false, false), Local(false, false, false, 0, 0, false, None))

  function ContextError(w: World): Result {
    if w.cancelled then Cancelled else TimedOut(0)
  }

  function FinalResult(code: int): Result {
    if code == TIMEOUT_EXIT then TimedOut(TIMEOUT_EXIT) else Code(code)
  }

  /** The loop condition. */
  function Settle(v: Local): Local {
    if v.copyDone && v.execDone then v.(result := Some(FinalResult(v.code))) else v
  }

  function OnCopied(w: World, v: Local): Local
    requires w.ended.Some?
  {
    var u := v.(copyDone := true);
    if v.leaving then u.(result := Some(ContextError(w)))
    else if w.ended.value && !v.forcedClose then u.(result := Some(CopyFault))
    else Settle(u)
  }

  /** The poll's look at the process. */
  function Inspected(w: World, v: Local, now: int, up: bool): Local {
    if !v.execDone && up && w.exit.Some? then
      v.(execDone := true, code := w.exit.value, graceUntil := now + GRACE)
    else v
  }

  function OnTick(s: State, now: int, up: bool): State {
    var u := Inspected(s.w, s.v, now, up);
    if u.execDone && !u.copyDone && now > u.graceUntil then
      State(s.w.(closed := true), Settle(u.(forcedClose := true)))
    else State(s.w, Settle(u))
  }

  function OnDone(s: State): State {
    State(s.w.(closed := true),
          if s.v.copyDone then s.v.(result := Some(ContextError(s.w))) else s.v.(leaving := true))
  }

  /** None for what cannot happen: a second exit, a message never sent, anything once ExecEnv has returned. */
  function Next(s: State, e: Event): Option<State> {
    if s.v.result.Some? then None
    else match e
      case Exit(c) => if s.w.exit.Some? then None else Some(s.(w := s.w.(exit := Some(c))))
      case StreamEnd(f) => if s.w.ended.Some? then None else Some(s.(w := s.w.(ended := Some(f))))
      case Cancel => Some(s.(w := s.w.(cancelled := true)))
      case Expire => Some(s.(w := s.w.(expired := true)))
      case TakeCopied =>
        if s.w.ended.None? || s.v.copyDone then None else Some(s.(v := OnCopied(s.w, s.v)))
      case TakeDone =>
        if s.v.leaving || !(s.w.cancelled || s.w.expired) then None else Some(OnDone(s))
      case TakeTick(now, up) => if s.v.leaving then None else Some(OnTick(s, now, up))
  }

  function Run(s: State, es: seq<Event>): Option<State> {
    if es == [] then Some(s)
    else match Run(s, es[..|es|-1])
      case None => None
      case Some(t) => Next(t, es[|es|-1])
  }

  // ---------------------------------------------------------------- a run's story, told by its events alone

  ghost predicate Has(es: seq<Event>, e: Event) {
    exists k :: 0 <= k < |es| && es[k] == e
  }

  /** The k-th event is a working poll of a process that has ended with `c`. */
  ghost predicate Finds(es: seq<Event>, k: int, c: int) {
    && 0 <= k < |es| && es[k].TakeTick? && es[k].up
    && exists j :: 0 <= j < k && es[j] == Exit(c)
  }

  /** ... and the first such poll. */
  ghost predicate Observes(es: seq<Event>, k: int, c: int) {
    Finds(es, k, c) && forall i, d | i < k :: !Finds(es, i, d)
  }

  /** At the k-th event the stream is forced shut: the exit was seen more than the grace ago, and
      the copier has not been heard from. */
  ghost predicate Forces(es: seq<Event>, k: int) {
    && 0 <= k < |es| && es[k].TakeTick?
    && (exists i, c :: i < k && Observes(es, i, c) && es[k].now > es[i].now + 2000)
    && forall j | 0 <= j < k :: es[j] != TakeCopied
  }

  /** What the events amount to, with no reference to the loop. */
  ghost predicate Returns(es: seq<Event>, r: Result) {
    && Has(es, TakeCopied)
    && if Has(es, TakeDone) then r == (if Has(es, Cancel) then Cancelled else TimedOut(0))
       else if Has(es, StreamEnd(true)) && !(exists k :: Forces(es, k)) then r == CopyFault
       else exists k, c :: Observes(es, k, c) && r == if c == 124 then TimedOut(124) else Code(c)
  }

  lemma HasMore(es: seq<Event>, e: Event, x: Event)
    ensures Has(es + [e], x) <==> Has(es, x) || e == x
  {
    var fs := es + [e];
    if Has(es, x) { var k :| 0 <= k < |es| && es[k] == x; assert fs[k] == x; }
    if e == x { assert fs[|es|] == x; }
  }

  lemma FindsMore(es: seq<Event>, e: Event, k: int, c: int)
    ensures k < |es| ==> (Finds(es + [e], k, c) <==> Finds(es, k, c))
    ensures k == |es| ==> (Finds(es + [e], k, c) <==> e.TakeTick? && e.up && Has(es, Exit(c)))
  {
    var fs := es + [e];
    if k < |es| && Finds(es, k, c) { var j :| 0 <= j < k && es[j] == Exit(c); assert fs[j] == Exit(c); }
    if k == |es| && Has(es, Exit(c)) { var j :| 0 <= j < k && es[j] == Exit(c); assert fs[j] == Exit(c); }
  }

  lemma ObservesMore(es: seq<Event>, e: Event, k: int, c: int)
    ensures k < |es| ==> (Observes(es + [e], k, c) <==> Observes(es, k, c))
    ensures k == |es| ==> (Observes(es + [e], k, c) <==>
              e.TakeTick? && e.up && Has(es, Exit(c)) && forall i, d :: !Finds(es, i, d))
  {
    forall i, d ensures i < |es| ==> (Finds(es + [e], i, d) <==> Finds(es, i, d)) { FindsMore(es, e, i, d); }
    FindsMore(es, e, k, c);
  }

  lemma ForcesMore(es: seq<Event>, e: Event, k: int)
    ensures k < |es| ==> (Forces(es + [e], k) <==> Forces(es, k))
    ensures k == |es| ==> (Forces(es + [e], k) <==>
              && e.TakeTick? && !Has(es, TakeCopied)
              && exists i, c :: Observes(es, i, c) && e.now > es[i].now + GRACE)
  {
    var fs := es + [e];
    forall i, c ensures i < |es| ==> (Observes(fs, i, c) <==> Observes(es, i, c)) { ObservesMore(es, e, i, c); }
    assert forall j | 0 <= j < |es| :: fs[j] == es[j];
    if Forces(fs, k) {
      var i, c :| i < k && Observes(fs, i, c) && fs[k].now > fs[i].now + GRACE;
      assert Observes(es, i, c);
      forall j | 0 <= j < k ensures es[j] != TakeCopied { assert fs[j] == es[j]; }
    }
  }

  // ---------------------------------------------------------------- the loop follows the story

  /** World and flags. */
  ghost predicate ToldWorld(es: seq<Event>, s: State) {
    && (forall c :: s.w.exit == Some(c) <==> Has(es, Exit(c)))
    && (forall f :: s.w.ended == Some(f) <==> Has(es, StreamEnd(f)))
    && (s.w.cancelled <==> Has(es, Cancel))
    && (s.v.copyDone <==> Has(es, TakeCopied))
    && (s.v.copyDone ==> s.w.ended.Some?)
    && (s.v.leaving ==> Has(es, TakeDone))
  }

  ghost predicate ToldExit(es: seq<Event>, s: State) {
    && (s.v.execDone <==> exists k, c :: Finds(es, k, c))
    && (s.v.execDone <==> exists k, c :: Observes(es, k, c))
    && (forall k, c | Observes(es, k, c) :: s.v.code == c && s.v.graceUntil == es[k].now + GRACE)
    && (s.v.forcedClose <==> exists k :: Forces(es, k))
  }

  ghost predicate ToldResult(es: seq<Event>, s: State) {
    && (forall r :: s.v.result == Some(r) <==> Returns(es, r))
    && (s.v.result.None? && Has(es, TakeDone) ==> s.v.leaving && !s.v.copyDone)
    && (s.v.result.None? && s.v.copyDone ==> s.w.ended == Some(false) && !s.v.execDone)
  }

  lemma WorldStep(es: seq<Event>, s: State, e: Event)
    requires ToldWorld(es, s) && Next(s, e).Some?
    ensures ToldWorld(es + [e], Next(s, e).value)
  {
    forall x ensures Has(es + [e], x) <==> Has(es, x) || e == x { HasMore(es, e, x); }
  }

  lemma ExitStep(es: seq<Event>, s: State, e: Event)
    requires ToldWorld(es, s) && ToldExit(es, s) && Next(s, e).Some?
    ensures ToldExit(es + [e], Next(s, e).value)
  {
    SeenStep(es, s, e);
    forall k, c | Observes(es + [e], k, c)
      ensures Next(s, e).value.v.code == c && Next(s, e).value.v.graceUntil == (es + [e])[k].now + GRACE
    {
      CodeStep(es, s, e, k, c);
    }
    ForceStep(es, s, e);
  }

  lemma SeenStep(es: seq<Event>, s: State, e: Event)
    requires ToldWorld(es, s) && ToldExit(es, s) && Next(s, e).Some?
    ensures Next(s, e).value.v.execDone <==> exists k, c :: Finds(es + [e], k, c)
    ensures Next(s, e).value.v.execDone <==> exists k, c :: Observes(es + [e], k, c)
  {
    var fs, t := es + [e], Next(s, e).value;
    forall k, c ensures Finds(fs, k, c) ==> Finds(es, k, c) || (k == |es| && e.TakeTick? && e.up && Has(es, Exit(c))) {
      FindsMore(es, e, k, c);
    }
    if s.v.execDone {
      var k, c :| Observes(es, k, c);
      ObservesMore(es, e, k, c);
      FindsMore(es, e, k, c);
      assert Finds(fs, k, c) && Observes(fs, k, c);
    } else if t.v.execDone {
      FindsMore(es, e, |es|, t.v.code);
      ObservesMore(es, e, |es|, t.v.code);
      assert Finds(fs, |es|, t.v.code) && Observes(fs, |es|, t.v.code);
    }
  }

  lemma CodeStep(es: seq<Event>, s: State, e: Event, k: int, c: int)
    requires ToldWorld(es, s) && ToldExit(es, s) && Next(s, e).Some? && Observes(es + [e], k, c)
    ensures Next(s, e).value.v.code == c && Next(s, e).value.v.graceUntil == (es + [e])[k].now + GRACE
  {
    ObservesMore(es, e, k, c);
    if k < |es| { assert Observes(es, k, c) && Finds(es, k, c); }
  }

  lemma ForceStep(es: seq<Event>, s: State, e: Event)
    requires ToldWorld(es, s) && ToldExit(es, s) && Next(s, e).Some?
    ensures Next(s, e).value.v.forcedClose <==> exists k :: Forces(es + [e], k)
  {
    var fs, t := es + [e], Next(s, e).value;
    forall k ensures k < |es| ==> (Forces(fs, k) <==> Forces(es, k)) { ForcesMore(es, e, k); }
    ForcesMore(es, e, |es|);
    if s.v.forcedClose {
      var k :| Forces(es, k);
      assert Forces(fs, k);
    } else if t.v.forcedClose {
      assert s.v.execDone;
      var i, c :| Observes(es, i, c);
      assert Forces(fs, |es|);
    }
  }

  lemma ReturnsMore(es: seq<Event>, s: State, e: Event, r: Result)
    requires ToldWorld(es, s) && ToldExit(es, s) && ToldResult(es, s) && Next(s, e).Some?
    requires ToldWorld(es + [e], Next(s, e).value) && ToldExit(es + [e], Next(s, e).value)
    ensures Next(s, e).value.v.result == Some(r) <==> Returns(es + [e], r)
  {
    if e.TakeCopied? {
      CopiedReturns(es, s, e, r);
    } else if e.TakeTick? {
      TickReturns(es, s, e, r);
    } else if e.TakeDone? {
      DoneReturns(es, s, e, r);
    } else {
      NothingReturns(es, s, e, r);
    }
  }

  lemma CopiedReturns(es: seq<Event>, s: State, e: Event, r: Result)
    requires ToldWorld(es, s) && ToldExit(es, s) && ToldResult(es, s) && Next(s, e).Some?
    requires ToldWorld(es + [e], Next(s, e).value) && ToldExit(es + [e], Next(s, e).value)
    requires e.TakeCopied?
    ensures Next(s, e).value.v.result == Some(r) <==> Returns(es + [e], r)
  {
    var fs, t := es + [e], Next(s, e).value;
    HasMore(es, e, TakeCopied);
    HasMore(es, e, TakeDone);
    HasMore(es, e, Cancel);
    assert !Returns(es, r);
    if t.v.execDone {
      var k, c :| Observes(fs, k, c);
    }
  }

  lemma TickReturns(es: seq<Event>, s: State, e: Event, r: Result)
    requires ToldWorld(es, s) && ToldExit(es, s) && ToldResult(es, s) && Next(s, e).Some?
    requires ToldWorld(es + [e], Next(s, e).value) && ToldExit(es + [e], Next(s, e).value)
    requires e.TakeTick?
    ensures Next(s, e).value.v.result == Some(r) <==> Returns(es + [e], r)
  {
    var fs, t := es + [e], Next(s, e).value;
    HasMore(es, e, TakeCopied);
    HasMore(es, e, TakeDone);
    HasMore(es, e, Cancel);
    assert !Returns(es, r);
    if t.v.execDone {
      var k, c :| Observes(fs, k, c);
    }
  }

  lemma DoneReturns(es: seq<Event>, s: State, e: Event, r: Result)
    requires ToldWorld(es, s) && ToldExit(es, s) && ToldResult(es, s) && Next(s, e).Some?
    requires ToldWorld(es + [e], Next(s, e).value) && ToldExit(es + [e], Next(s, e).value)
    requires e.TakeDone?
    ensures Next(s, e).value.v.result == Some(r) <==> Returns(es + [e], r)
  {
    var fs, t := es + [e], Next(s, e).value;
    HasMore(es, e, TakeCopied);
    HasMore(es, e, TakeDone);
    HasMore(es, e, Cancel);
    assert !Returns(es, r);
    if t.v.execDone {
      var k, c :| Observes(fs, k, c);
    }
  }

  /** What the process, the stream or the context does is not yet a result. */
  lemma NothingReturns(es: seq<Event>, s: State, e: Event, r: Result)
    requires ToldWorld(es, s) && ToldResult(es, s) && Next(s, e).Some?
    requires ToldWorld(es + [e], Next(s, e).value) && ToldExit(es + [e], Next(s, e).value) && ToldExit(es, s)
    requires !e.TakeCopied? && !e.TakeTick? && !e.TakeDone?
    ensures Next(s, e).value.v.result == None && !Returns(es + [e], r)
  {
    var t := Next(s, e).value;
    HasMore(es, e, TakeCopied);
    HasMore(es, e, TakeDone);
    HasMore(es, e, StreamEnd(true));
    if t.v.execDone {
      var k, c :| Observes(es + [e], k, c);
    }
  }

  lemma ResultStep(es: seq<Event>, s: State, e: Event)
    requires ToldWorld(es, s) && ToldExit(es, s) && ToldResult(es, s) && Next(s, e).Some?
    ensures ToldResult(es + [e], Next(s, e).value)
  {
    HasMore(es, e, TakeDone);
    HasMore(es, e, TakeCopied);
    WorldStep(es, s, e);
    ExitStep(es, s, e);
    forall r ensures Next(s, e).value.v.result == Some(r) <==> Returns(es + [e], r) { ReturnsMore(es, s, e, r); }
  }

  lemma {:induction false} RunIsTold(es: seq<Event>, s: State)
    requires Run(START, es) == Some(s)
    ensures ToldWorld(es, s) && ToldExit(es, s) && ToldResult(es, s)
  {
    if es != [] {
      var before, e := es[..|es|-1], es[|es|-1];
      var t := Run(START, before).value;
      RunIsTold(before, t);
      assert es == before + [e];
      WorldStep(before, t, e);
      ExitStep(before, t, e);
      ResultStep(before, t, e);
    }
  }

  /** For every order of events ExecEnv returns what the events amount to: after the context ended,
      the context's error; else a copy error only if the stream was not forced shut; else the exit
      code that the first successful poll after the process's end found, once the copier has ended. */
  lemma ReturnsExactly(es: seq<Event>, s: State)
    requires Run(START, es) == Some(s)
    ensures forall r :: s.v.result == Some(r) <==> Returns(es, r)
  {
    RunIsTold(es, s);
  }

  /** A code without an error is the process's own, seen after it ended and with the copier done; and
      the copier either reached the end of the stream or was cut off past the grace. */
  lemma NoFalseSuccess(es: seq<Event>, s: State, c: int)
    requires Run(START, es) == Some(s) && s.v.result == Some(Code(c))
    ensures s.w.exit == Some(c) && c != 124 && s.w.ended.Some?
    ensures exists k :: Observes(es, k, c)
    ensures s.w.ended == Some(false) || exists k :: Forces(es, k)
  {
    RunIsTold(es, s);
    assert Returns(es, Code(c));
    var k, d :| Observes(es, k, d) && Code(c) == if d == 124 then TimedOut(124) else Code(d);
    var j :| 0 <= j < k && es[j] == Exit(d);
    assert Has(es, Exit(d));
    if s.w.ended.value {
      assert s.w.ended == Some(true);
      assert Has(es, StreamEnd(true));
    } else {
      assert s.w.ended == Some(false);
    }
  }

  /** The call is decided by the process: the copier was heard from, the context did not end the wait, and no copy
      error counts. */
  ghost predicate ByProcess(es: seq<Event>) {
    Has(es, TakeCopied) && !Has(es, TakeDone) && (Has(es, StreamEnd(true)) ==> exists k :: Forces(es, k))
  }

  lemma OneExit(es: seq<Event>, s: State, j: int, c: int, k: int, d: int)
    requires Run(START, es) == Some(s) && Observes(es, j, c) && Observes(es, k, d)
    ensures c == d && s.w.exit == Some(c)
  {
    RunIsTold(es, s);
    var i :| 0 <= i < j && es[i] == Exit(c);
    assert Has(es, Exit(c));
  }

  /** Every exit code but 124 comes back as it is, 124 alone as a timeout of the command. */
  lemma ExitCodeComesBack(es: seq<Event>, s: State, k: int, c: int)
    requires Run(START, es) == Some(s) && ByProcess(es) && Observes(es, k, c)
    ensures s.v.result == Some(if c == 124 then TimedOut(124) else Code(c))
  {
    RunIsTold(es, s);
    assert Returns(es, if c == 124 then TimedOut(124) else Code(c));
  }

  /** A timeout is reported only after the context ended without being cancelled, or of a command that exited
      with 124; a cancellation only if the caller cancelled. */
  lemma TimedOutMeans(es: seq<Event>, s: State)
    requires Run(START, es) == Some(s)
    ensures forall n :: s.v.result == Some(TimedOut(n)) ==>
              || (n == 0 && Has(es, TakeDone) && !Has(es, Cancel))
              || (n == 124 && s.w.exit == Some(124) && ByProcess(es) && exists k :: Observes(es, k, 124))
    ensures s.v.result == Some(Cancelled) <==> Has(es, TakeCopied) && Has(es, TakeDone) && Has(es, Cancel)
  {
    RunIsTold(es, s);
    if s.v.result.Some? && s.v.result.value.TimedOut? {
      var r := s.v.result.value;
      assert Returns(es, r);
      if !Has(es, TakeDone) {
        var k, c :| Observes(es, k, c) && r == if c == 124 then TimedOut(124) else Code(c);
        OneExit(es, s, k, c, k, c);
      }
    }
    assert s.v.result == Some(Cancelled) <==> Returns(es, Cancelled);
  }

  /** The stream is shut exactly by a beat that forces it or by the context's end. */
  lemma ShutExactly(es: seq<Event>, s: State)
    requires Run(START, es) == Some(s)
    ensures s.w.closed <==> Has(es, TakeDone) || exists k :: Forces(es, k)
  {
    RunIsTold(es, s);
    ShutMeans(es, s);
  }

  lemma {:induction false} ShutMeans(es: seq<Event>, s: State)
    requires Run(START, es) == Some(s)
    ensures s.w.closed <==> s.v.forcedClose || Has(es, TakeDone)
  {
    if es != [] {
      var before, e := es[..|es|-1], es[|es|-1];
      assert es == before + [e];
      ShutMeans(before, Run(START, before).value);
      HasMore(before, e, TakeDone);
    }
  }

  lemma RunOn(es: seq<Event>, e: Event, s: State)
    requires Run(START, es) == Some(s)
    ensures Run(START, es + [e]) == Next(s, e)
  {
    assert (es + [e])[..|es|] == es;
  }

  function ResultOf(es: seq<Event>): Option<Result> {
    match Run(START, es) case Some(s) => s.v.result case None => None
  }

  /** A command that ends with its output: its code, once both were seen, in either order. */
  lemma PlainCourse(c: int, now: int)
    ensures ResultOf([Exit(c), StreamEnd(false), TakeCopied] + [TakeTick(now, true)])
            == Some(if c == 124 then TimedOut(124) else Code(c))
    ensures ResultOf([Exit(c), StreamEnd(false), TakeTick(now, true)] + [TakeCopied])
            == Some(if c == 124 then TimedOut(124) else Code(c))
  {
    Three(Exit(c), StreamEnd(false), TakeCopied);
    RunOn([Exit(c), StreamEnd(false), TakeCopied], TakeTick(now, true),
          Run(START, [Exit(c), StreamEnd(false), TakeCopied]).value);
    Three(Exit(c), StreamEnd(false), TakeTick(now, true));
    RunOn([Exit(c), StreamEnd(false), TakeTick(now, true)], TakeCopied,
          Run(START, [Exit(c), StreamEnd(false), TakeTick(now, true)]).value);
  }

  /** One whose output is held open: cut off past the grace, the cut's error not counted. */
  lemma HeldOpenCourse(c: int, now: int, later: int, failed: bool)
    requires later > now + 2000
    ensures ResultOf([Exit(c), TakeTick(now, true), TakeTick(later, true)] + [StreamEnd(failed)] + [TakeCopied])
            == Some(if c == 124 then TimedOut(124) else Code(c))
  {
    var es := [Exit(c), TakeTick(now, true), TakeTick(later, true)];
    Three(Exit(c), TakeTick(now, true), TakeTick(later, true));
    RunOn(es, StreamEnd(failed), Run(START, es).value);
    RunOn(es + [StreamEnd(failed)], TakeCopied, Run(START, es + [StreamEnd(failed)]).value);
  }

  /** One the context ends: the copier is waited for, and the context's error comes back. */
  lemma EndedCourse(cancelled: bool, failed: bool)
    ensures ResultOf([if cancelled then Cancel else Expire, TakeDone, StreamEnd(failed)] + [TakeCopied])
            == Some(if cancelled then Cancelled else TimedOut(0))
  {
    var es := [if cancelled then Cancel else Expire, TakeDone, StreamEnd(failed)];
    Three(es[0], es[1], es[2]);
    RunOn(es, TakeCopied, Run(START, es).value);
  }

  lemma Three(a: Event, b: Event, c: Event)
    ensures Run(START, [a, b, c])
            == match Next(START, a)
               case None => None
               case Some(s) => (match Next(s, b) case None => None case Some(t) => Next(t, c))
  {
    assert [a, b, c][..2] == [a, b] && [a, b][..1] == [a] && [a][..0] == [];
    assert Run(START, [a]) == Next(START, a);
    assert Run(START, [a, b]) == match Next(START, a) case None => None case Some(s) => Next(s, b);
  }

  function Ticks(es: seq<Event>): nat {
    if es == [] then 0 else Ticks(es[..|es|-1]) + (if es[|es|-1].TakeTick? then 1 else 0)
  }

  function Latest(last: int, es: seq<Event>): int {
    if es == [] then last
    else if es[|es|-1].TakeTick? then es[|es|-1].now
    else Latest(last, es[..|es|-1])
  }

  /** The ticker's beats are at least one poll interval, 200 milliseconds, apart. */
  predicate Spaced(last: int, es: seq<Event>) {
    es == [] || (Spaced(last, es[..|es|-1])
                 && (es[|es|-1].TakeTick? ==> es[|es|-1].now >= Latest(last, es[..|es|-1]) + 200))
  }

  lemma {:induction false} GraceRunsOut(s: State, es: seq<Event>, t: State)
    requires s.v.execDone && !s.v.copyDone && !s.v.leaving && s.v.result.None?
    requires Run(s, es) == Some(t) && Spaced(s.v.graceUntil - 2000, es)
    ensures Latest(s.v.graceUntil - 2000, es) >= s.v.graceUntil - 2000 + 200 * Ticks(es)
    ensures t.v.execDone && t.v.code == s.v.code && t.v.graceUntil == s.v.graceUntil
    ensures t.v.copyDone ==> t.v.result.Some?
    ensures t.v.forcedClose || t.v.leaving || t.v.result.Some? || Latest(s.v.graceUntil - 2000, es) <= s.v.graceUntil
  {
    if es != [] {
      GraceRunsOut(s, es[..|es|-1], Run(s, es[..|es|-1]).value);
    }
  }

  /** Once the exit is seen the wait is bounded: eleven beats later the stream has been forced shut
      unless the call has ended or is leaving, and then the copier's end settles it, with the code that
      was seen and not with the copier's error. */
  lemma ExitSeenThenEnds(s: State, es: seq<Event>, t: State)
    requires s.v.execDone && !s.v.copyDone && !s.v.leaving && s.v.result.None?
    requires Run(s, es) == Some(t) && Spaced(s.v.graceUntil - 2000, es) && Ticks(es) >= 11
    ensures t.v.result.Some? || t.v.forcedClose || t.v.leaving
    ensures t.v.result.None? && t.w.ended.Some? ==>
              Next(t, TakeCopied).Some?
              && Next(t, TakeCopied).value.v.result
                 == Some(if t.v.leaving then if t.w.cancelled then Cancelled else TimedOut(0)
                         else if s.v.code == 124 then TimedOut(124) else Code(s.v.code))
  {
    GraceRunsOut(s, es, t);
  }

  // ---------------------------------------------------------------- the method

  lemma Prefix(s: State, es: seq<Event>, k: nat)
    requires k <= |es| && Run(s, es).Some?
    ensures Run(s, es[..k]).Some?
    ensures k < |es| ==> Run(s, es[..k+1]) == Next(Run(s, es[..k]).value, es[k])
    ensures k < |es| ==> Run(s, es[..k+1]).Some? && Run(s, es[..k]).value.v.result.None?
  {
    if k == |es| {
      assert es[..k] == es;
    } else if k + 1 == |es| {
      assert es[..k+1] == es;
    } else {
      assert es[..|es|-1][..k] == es[..k] && es[..|es|-1][..k+1] == es[..k+1];
      Prefix(s, es[..|es|-1], k);
    }
  }

  function Around(w: World, e: Event): World {
    match e
    case Exit(c) => w.(exit := Some(c))
    case StreamEnd(f) => w.(ended := Some(f))
    case Cancel => w.(cancelled := true)
    case Expire => w.(expired := true)
    case _ => w
  }

  /** ExecEnv from the moment the exec is attached, under any possible order of events; None when the
      events run out before it returns. */
  method ExecEnv(es: seq<Event>) returns (r: Option<Result>)
    requires Run(START, es).Some?
    ensures r == Run(START, es).value.v.result
    ensures r.Some? ==> Returns(es, r.value)
    ensures r.None? ==> forall x :: !Returns(es, x)
  {
    ReturnsExactly(es, Run(START, es).value);
    var w := START.w;
    var copyDone, execDone, forcedClose, exitCode, graceUntil := false, false, false, 0, 0;
    var k := 0;
    while !copyDone || !execDone
      invariant k <= |es|
      invariant Run(START, es[..k]) ==
                Some(State(w, Settle(Local(copyDone, execDone, forcedClose, exitCode, graceUntil, false, None))))
      decreases |es| - k
    {
      Prefix(START, es, k);
      if k == |es| {
        assert es[..k] == es;
        return None;
      }
      var e := es[k];
      k := k + 1;
      match e {
        case TakeCopied =>
          copyDone := true;
          if w.ended.value && !forcedClose {
            Done(es, k);
            return Some(CopyFault);
          }
        case TakeDone =>
          r := Leave(es, k, w, copyDone);
          return;
        case TakeTick(now, up) =>
          if !execDone {
            if !up || w.exit.None? {
              continue;
            }
            exitCode, execDone := w.exit.value, true;
            graceUntil := now + GRACE;
          }
          if !copyDone && now > graceUntil {
            forcedClose := true;
            w := w.(closed := true);
          }
        case _ =>
          w := Around(w, e);
      }
    }
    Done(es, k);
    if exitCode == TIMEOUT_EXIT {
      return Some(TimedOut(TIMEOUT_EXIT));
    }
    r := Some(Code(exitCode));
  }

  /** Nothing follows a result. */
  lemma Done(es: seq<Event>, k: nat)
    requires k <= |es| && Run(START, es).Some?
    requires Run(START, es[..k]).Some? && Run(START, es[..k]).value.v.result.Some?
    ensures k == |es| && es[..k] == es
  {
    if k < |es| { Prefix(START, es, k); }
  }

  /** A step while the call waits for the copier only. */
  lemma Leaving(s: State, e: Event)
    requires s.v.leaving && !s.v.copyDone && Next(s, e).Some?
    ensures var t := Next(s, e).value;
            && t.w == Around(s.w, e) && t.v.leaving && t.v.copyDone == (e == TakeCopied)
            && t.v.result == if e == TakeCopied then Some(ContextError(t.w)) else None
  {
  }

  /** After `k` events the call waits for the copier only, or has just heard from it. */
  ghost predicate LeavingAt(es: seq<Event>, k: nat, w: World, copied: bool) {
    && k <= |es| && Run(START, es[..k]).Some?
    && var s := Run(START, es[..k]).value;
       && s.w == w && s.v.leaving && s.v.copyDone == copied
       && s.v.result == if copied then Some(ContextError(w)) else None
  }

  lemma LeavingMore(es: seq<Event>, k: nat, w: World)
    requires Run(START, es).Some? && LeavingAt(es, k, w, false) && k < |es|
    ensures LeavingAt(es, k + 1, Around(w, es[k]), es[k] == TakeCopied)
  {
    Prefix(START, es, k);
    Leaving(Run(START, es[..k]).value, es[k]);
  }

  lemma LeavingEnds(es: seq<Event>, k: nat, w: World, copied: bool)
    requires Run(START, es).Some? && LeavingAt(es, k, w, copied) && (copied || k == |es|)
    ensures Run(START, es).value.v.result == if copied then Some(ContextError(w)) else None
  {
    if copied { Done(es, k); }
    assert es[..|es|] == es;
  }

  /** The context has ended: close the stream, wait for the copier, report the context's error. */
  method Leave(es: seq<Event>, from: nat, world: World, copyDone: bool) returns (r: Option<Result>)
    requires from <= |es| && Run(START, es).Some? && Run(START, es[..from]).Some?
    requires var s := Run(START, es[..from]).value;
             && s.w == world.(closed := true) && s.v.copyDone == copyDone
             && (if copyDone then s.v.result == Some(ContextError(s.w)) else s.v.leaving && s.v.result.None?)
    ensures r == Run(START, es).value.v.result
  {
    var w := world.(closed := true);
    if copyDone {
      Done(es, from);
    } else {
      var k := from;
      var copied := false;
      while !copied
        invariant LeavingAt(es, k, w, copied)
        decreases |es| - k
      {
        if k == |es| {
          LeavingEnds(es, k, w, false);
          return None;
        }
        LeavingMore(es, k, w);
        copied := es[k] == TakeCopied;
        w := Around(w, es[k]);
        k := k + 1;
      }
      LeavingEnds(es, k, w, true);
    }
    r := Some(if w.cancelled then Cancelled else TimedOut(0));
  }
}
