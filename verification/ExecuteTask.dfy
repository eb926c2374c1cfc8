/** What the Go worker does with one claimed run, whatever the handler, the hook around it, the
    store and the database driver do; and that it is what a session of the replay protocol does. */
module ExecuteTask {
  import opened Prelude
  import opened Store
  import opened Replay
  import opened History
  import opened Durable

  /** How a call on the database comes back.  `DriverPanic`: the driver panics, after or before
      the procedure ran. */
  datatype Network = Replied | RequestLost | ReplyLost | DriverPanic(ran: bool)

  /** What `errors.Is` finds in an error; `Unprintable` errors panic in their Error method. */
  datatype TaskError = SuspendSignal | CancelledSignal | FailedRunSignal | Ordinary | Unprintable

  /** How the hook-wrapped handler ends; `Exits` is runtime.Goexit. */
  datatype Ending = Returns(value: Value) | Errs(error: TaskError) | Panics | Exits

  datatype Registration = Unknown | OtherQueue | Known

  datatype Loaded = ContextOk | BadHeaders | LoadError

  datatype Marshal = MarshalOk | MarshalError | MarshalPanics

  /** Everything outside executeTask's control.  `during` is the store once the handler is done:
      the handler's own writes and everybody else's. */
  datatype Script = Script(run: nat, registration: Registration, deferAt: int, deferNet: Network, loaded: Loaded,
                           ending: Ending, during: Task, marshal: Marshal, firstNet: Network, lastNet: Network,
                           after: AfterFail)

  datatype TerminalCall = CompleteRunCall | FailRunCall

  datatype GoError = NoError | SomeError

  /** How executeTask, or its body, is left. */
  datatype Leaving = Returned(err: GoError) | Panicking | Exiting

  predicate Ran(n: Network) {
    n.Replied? || n.ReplyLost? || (n.DriverPanic? && n.ran)
  }

  predicate Signal(e: TaskError) {
    e in {SuspendSignal, CancelledSignal, FailedRunSignal}
  }

  /** The handler gets to run. */
  predicate HandlerRuns(s: Script) {
    s.registration.Known? && s.loaded.ContextOk?
  }

  function RequestOf(call: TerminalCall, value: Value): Request {
    if call.CompleteRunCall? then Complete(value) else Fail
  }

  /** The runs a terminal call ends: running ones, and for fail_run also sleeping ones. */
  predicate Ends(t: Task, call: TerminalCall, run: nat) {
    run < |t.runs| && (t.runs[run].state == Running || (call.FailRunCall? && t.runs[run].state == Sleeping))
  }

  /** The run is over: failed, or cancelled. */
  predicate Over(t: Task, run: nat) {
    run < |t.runs| && t.runs[run].state in {State.Failed, Cancelled}
  }

  /** The store the terminal call meets. */
  function Met(s: Script, t: Task): Task {
    if HandlerRuns(s) then s.during else t
  }

  class Worker {
    var task: Task
    var calls: seq<TerminalCall>   // the complete_run and fail_run calls made so far

    constructor (t: Task)
      ensures task == t && calls == []
    {
      task, calls := t, [];
    }

    /** A complete_run or fail_run call, with swallowTerminalTaskStateError on its error.  It ends
        the run or leaves the store alone; no error is reported exactly when the reply came and the
        run has ended, by this call or before it. */
    method Terminal(call: TerminalCall, run: nat, value: Value, after: AfterFail, net: Network)
        returns (leaving: Leaving)
      modifies this
      ensures calls == old(calls) + [call]
      ensures leaving == Panicking <==> net.DriverPanic?
      ensures leaving == Returned(NoError) <==> net.Replied? && (Ends(old(task), call, run) || Over(old(task), run))
      ensures leaving != Exiting
      ensures !Ran(net) || !Ends(old(task), call, run) ==> task == old(task)
      ensures Ran(net) && Ends(old(task), call, run) ==>
                && |task.runs| >= |old(task).runs| && task.checkpoints == old(task).checkpoints
                && task.runs[run].state == (if call.CompleteRunCall? then Completed else State.Failed)
                && task.result == (if call.CompleteRunCall? then Some(value) else old(task).result)
                && forall k | 0 <= k < |old(task).runs| && k != run :: task.runs[k] == old(task).runs[k]
      ensures task == if Ran(net) then Execute(old(task), run, RequestOf(call, value), 0, after).0 else old(task)
    {
      var (t, reply) := if call.CompleteRunCall? then CompleteRun(task, run, value) else FailRun(task, run, after);
      calls := calls + [call];
      if Ran(net) {
        task := t;
      }
      leaving := if net.DriverPanic? then Panicking
                 else if net.Replied? && reply in {Done, TaskCancelled, RunEnded} then Returned(NoError)
                 else Returned(SomeError);
    }

    /** `deferClaimedRun`: puts a running run to sleep until `at`. */
    method Defer(run: nat, at: int, net: Network) returns (panicked: bool, ok: bool)
      modifies this`task
      ensures panicked <==> net.DriverPanic?
      ensures ok <==> net.Replied? && run < |old(task).runs| && old(task).runs[run].state == Running
      ensures ok ==> run < |task.runs| && task.runs[run].state == Sleeping && task.runs[run].available == Some(at)
      ensures task.checkpoints == old(task).checkpoints && task.result == old(task).result
      ensures task == old(task) || (run < |old(task).runs| && old(task).runs[run].state == Running)
    {
      var (t, reply) := ScheduleRun(task, run, at);
      if Ran(net) {
        task := t;
      }
      panicked, ok := net.DriverPanic?, net.Replied? && reply == Done;
    }

    /** The body below the deferred recover. */
    method Body(s: Script) returns (leaving: Leaving)
      modifies this
      ensures calls == old(calls) + FirstCall(s, old(task))
      ensures leaving == Exiting <==> HandlerRuns(s) && s.ending.Exits?
      ensures leaving == Panicking <==> PanicsFirst(s) || (FirstCall(s, old(task)) != [] && s.firstNet.DriverPanic?)
      ensures HandlerRuns(s) && s.ending.Errs? && Signal(s.ending.error) ==> leaving == Returned(NoError)
      ensures HandlerRuns(s) ==>
                var first := FirstCall(s, old(task));
                task == if first == [] then s.during else After(s.during, s.run, RequestOf(first[0], Result(s)),
                    s.firstNet, s.after)
      ensures Over(Met(s, old(task)), s.run) ==> task == Met(s, old(task))
      ensures Over(Met(s, old(task)), s.run) && FirstCall(s, old(task)) != [] && s.firstNet.Replied? ==>
              leaving == Returned(NoError)
    {
      if s.registration.Unknown? {
        var panicked, ok := Defer(s.run, s.deferAt, s.deferNet);
        if panicked {
          return Panicking;
        }
        if !ok {
          leaving := Terminal(FailRunCall, s.run, Json(""), s.after, s.firstNet);
          return;
        }
        return Returned(NoError);
      }
      if s.registration.OtherQueue? {
        leaving := Terminal(FailRunCall, s.run, Json(""), s.after, s.firstNet);
        return;
      }
      if s.loaded.BadHeaders? {
        leaving := Terminal(FailRunCall, s.run, Json(""), s.after, s.firstNet);
        return;
      }
      if s.loaded.LoadError? {
        return Returned(SomeError);
      }
      task := s.during;
      match s.ending {
        case Panics => return Panicking;
        case Exits => return Exiting;
        case Errs(e) =>
          if Signal(e) {
            return Returned(NoError);
          }
          if e.Unprintable? {
            return Panicking;
          }
          leaving := Terminal(FailRunCall, s.run, Json(""), s.after, s.firstNet);
        case Returns(v) =>
          if s.marshal.MarshalError? {
            return Returned(SomeError);
          }
          if s.marshal.MarshalPanics? {
            return Panicking;
          }
          leaving := Terminal(CompleteRunCall, s.run, v, s.after, s.firstNet);
      }
    }

    /** executeTask: a panic in the body is recovered and reported as a failure; a panic inside
        that report escapes. */
    method ExecuteTask(s: Script) returns (leaving: Leaving)
      modifies this
      // at most one terminal call, and a second, a fail_run, exactly when the driver panics in the first
      ensures old(calls) <= calls && |calls| <= |old(calls)| + 2
      ensures |calls| == |old(calls)| + 2 <==> FirstCall(s, old(task)) != [] && s.firstNet.DriverPanic?
      ensures |calls| == |old(calls)| + 2 ==> calls[|old(calls)| + 1] == FailRunCall
      // none once a signal surfaces, a completion exactly for a marshalled return value
      ensures HandlerRuns(s) && s.ending.Errs? && Signal(s.ending.error) ==>
              calls == old(calls) && leaving == Returned(NoError)
      ensures CompleteRunCall in calls[|old(calls)|..] <==> HandlerRuns(s) && s.ending.Returns? && s.marshal.MarshalOk?
      // the endings without any report
      ensures calls == old(calls) <==>
                || (HandlerRuns(s) && s.ending.Exits?)
                || (HandlerRuns(s) && s.ending.Errs? && Signal(s.ending.error))
                || (HandlerRuns(s) && s.ending.Returns? && s.marshal.MarshalError?)
                || (s.registration.Known? && s.loaded.LoadError?)
                || (s.registration.Unknown? && Deferred(s, old(task)))
      // a panic escapes only from the database driver in the report of a panic
      ensures leaving == Panicking ==>
              s.lastNet.DriverPanic? && |calls| > |old(calls)| && calls[|calls| - 1] == FailRunCall
      ensures leaving == Exiting <==> HandlerRuns(s) && s.ending.Exits?
      // a run that is over: nothing changes, and no error is reported when the replies come
      ensures Over(Met(s, old(task)), s.run) ==> task == Met(s, old(task))
      ensures Over(Met(s, old(task)), s.run) && calls != old(calls) && s.firstNet.Replied? && s.lastNet.Replied? ==>
              leaving == Returned(NoError)
      // what is left, for WorkerIsSession
      ensures HandlerRuns(s) ==> calls == old(calls) + FinalCalls(s) && task == FinalTask(s)
    {
      leaving := Body(s);
      ghost var first, last := FirstCall(s, old(task)), [];
      if leaving == Panicking {
        leaving := Terminal(FailRunCall, s.run, Json(""), s.after, s.lastNet);
        last := [FailRunCall];
      }
      assert calls[|old(calls)|..] == first + last;
    }
  }

  // ----- the same, as moves of a session -----

  /** The deferral of an unknown task succeeds. */
  predicate Deferred(s: Script, t: Task) {
    s.deferNet.Replied? && s.run < |t.runs| && t.runs[s.run].state == Running
  }

  /** The call the body makes, if any. */
  function FirstCall(s: Script, t: Task): seq<TerminalCall> {
    match s.registration
    case OtherQueue => [FailRunCall]
    case Unknown => if s.deferNet.DriverPanic? || Deferred(s, t) then [] else [FailRunCall]
    case Known =>
      match s.loaded
      case BadHeaders => [FailRunCall]
      case LoadError => []
      case ContextOk => EndingCall(s)
  }

  /** The call it makes once the handler has ended. */
  function EndingCall(s: Script): seq<TerminalCall> {
    match s.ending
    case Errs(e) => if e.Ordinary? then [FailRunCall] else []
    case Returns(_) => if s.marshal.MarshalOk? then [CompleteRunCall] else []
    case _ => []
  }

  /** The body panics without having made a call. */
  predicate PanicsFirst(s: Script) {
    || (s.registration.Unknown? && s.deferNet.DriverPanic?)
    || (HandlerRuns(s) && s.ending.Panics?)
    || (HandlerRuns(s) && s.ending == Errs(Unprintable))
    || (HandlerRuns(s) && s.ending.Returns? && s.marshal.MarshalPanics?)
  }

  function Result(s: Script): Value {
    if s.ending.Returns? then s.ending.value else Json("")
  }

  /** Session `i` of world `w` runs the script's handler, which has just ended that way: it is
      about to return the value, gone with a signal, or somewhere between two answers of the store
      when the handler fails: idle, in a step function, in a sleep, or after a failed call. */
  ghost predicate Plays(h: Handler, w: World, i: nat, s: Script) {
    && HandlerRuns(s) && i < |w.sessions| && w.task == s.during && w.sessions[i].run == s.run
    && var p := w.sessions[i].phase;
    && (if s.ending.Returns? then p == Idle && h(w.sessions[i].seen) == Return(s.ending.value)
        else if s.ending.Errs? && Signal(s.ending.error) then p == Gone
        else p == Idle || p.Missed? || p.Holding? || p == Failing)
  }

  /** The rest of a terminal call after which nothing follows. */
  function Delivery(i: nat, net: Network, after: AfterFail): seq<Event> {
    if net.Replied? then [Serve(i, 0, after), ReplyArrives(i, false)]
    else if Ran(net) then [Serve(i, 0, after), Event.ReplyLost(i, false)]
    else [GiveUp(i, false)]
  }

  /** The rest of a first terminal call: a panic of the driver leads to another report, by the
      session itself or, when its request is still out, by the client it leaves behind. */
  function FirstDelivery(i: nat, n: nat, s: Script): seq<Event> {
    if !s.firstNet.DriverPanic? then Delivery(i, s.firstNet, s.after)
    else if s.firstNet.ran then [Serve(i, 0, s.after), Event.ReplyLost(i, true)]
        + ([ReportFailure(i)] + Delivery(i, s.lastNet, s.after))
    else [GiveUp(i, true)] + ([ReportFailure(n)] + Delivery(n, s.lastNet, s.after))
  }

  /** The moves of session `i` of `n` that executeTask stands for. */
  function Moves(s: Script, i: nat, n: nat): seq<Event> {
    if PanicsFirst(s) then [Raise(i)] + ([ReportFailure(i)] + Delivery(i, s.lastNet, s.after))
    else if EndingCall(s) == [CompleteRunCall] then [Finish(i)] + FirstDelivery(i, n, s)
    else if EndingCall(s) == [FailRunCall] then [Raise(i)] + ([ReportFailure(i)] + FirstDelivery(i, n, s))
    else [Crash(i)]
  }

  /** The terminal calls among the moves. */
  function CallsOf(moves: seq<Event>): seq<TerminalCall> {
    if moves == [] then []
    else
      (if moves[0].Finish? then [CompleteRunCall] else if moves[0].ReportFailure? then [FailRunCall] else [])
          + CallsOf(moves[1..])
  }

  function After(t: Task, run: nat, req: Request, net: Network, after: AfterFail): Task {
    if Ran(net) then Execute(t, run, req, 0, after).0 else t
  }

  lemma ExecOne(h: Handler, w: World, e: Event, rest: seq<Event>)
    ensures Exec(h, w, [e] + rest) == Exec(h, Do(h, w, e), rest)
    ensures CallsOf([e] + rest) == CallsOf([e]) + CallsOf(rest)
  {
    assert ([e] + rest)[1..] == rest && [e][1..] == [];
  }

  /** An event that reports nothing. */
  predicate Quiet(e: Event) {
    !e.Finish? && !e.ReportFailure?
  }

  lemma QuietPair(h: Handler, w: World, a: Event, b: Event)
    requires Quiet(a) && Quiet(b)
    ensures Exec(h, w, [a, b]) == Do(h, Do(h, w, a), b) && CallsOf([a, b]) == []
  {
    assert [a, b] == [a] + ([b] + []);
    ExecOne(h, w, a, [b] + []);
    ExecOne(h, Do(h, w, a), b, []);
    assert CallsOf([a]) == [] && CallsOf([b]) == [];
  }

  lemma ServedTask(h: Handler, w: World, i: nat, after: AfterFail, last: Event)
    requires i < |w.sessions| && w.sessions[i].phase.Sent?
    requires last in {ReplyArrives(i, false), Event.ReplyLost(i, false)}
    ensures Exec(h, w, [Serve(i, 0, after), last]).task
         == Execute(w.task, w.sessions[i].run, w.sessions[i].phase.req, 0, after).0
    ensures CallsOf([Serve(i, 0, after), last]) == []
  {
    QuietPair(h, w, Serve(i, 0, after), last);
  }

  lemma GivenUpTask(h: Handler, w: World, i: nat)
    requires i < |w.sessions|
    ensures Exec(h, w, [GiveUp(i, false)]).task == w.task && CallsOf([GiveUp(i, false)]) == []
  {
    assert [GiveUp(i, false)] == [GiveUp(i, false)] + [];
    ExecOne(h, w, GiveUp(i, false), []);
  }

  lemma DeliveryTask(h: Handler, w: World, i: nat, net: Network, after: AfterFail)
    requires i < |w.sessions| && w.sessions[i].phase.Sent?
    ensures Exec(h, w, Delivery(i, net, after)).task
         == After(w.task, w.sessions[i].run, w.sessions[i].phase.req, net, after)
    ensures CallsOf(Delivery(i, net, after)) == []
  {
    if Ran(net) {
      ServedTask(h, w, i, after, if net.Replied? then ReplyArrives(i, false) else Event.ReplyLost(i, false));
    } else {
      GivenUpTask(h, w, i);
    }
  }

  lemma ReportTask(h: Handler, w: World, i: nat, net: Network, after: AfterFail)
    requires i < |w.sessions| && w.sessions[i].phase == Failing
    ensures Exec(h, w, [ReportFailure(i)] + Delivery(i, net, after)).task
         == After(w.task, w.sessions[i].run, Fail, net, after)
    ensures CallsOf([ReportFailure(i)] + Delivery(i, net, after)) == [FailRunCall]
  {
    ExecOne(h, w, ReportFailure(i), Delivery(i, net, after));
    DeliveryTask(h, Do(h, w, ReportFailure(i)), i, net, after);
  }

  /** A driver that panics after the call ran: the same session reports again. */
  lemma PanicAfterTask(h: Handler, w: World, i: nat, s: Script)
    requires i < |w.sessions| && w.sessions[i].phase.Sent?
    requires (w.sessions[i].phase.req.Fail? || w.sessions[i].phase.req.Complete?)
    ensures var run, t := w.sessions[i].run, Execute(w.task, w.sessions[i].run, w.sessions[i].phase.req, 0, s.after).0;
            var moves := [Serve(i, 0, s.after), Event.ReplyLost(i, true)]
                + ([ReportFailure(i)] + Delivery(i, s.lastNet, s.after));
            Exec(h, w, moves).task == After(t, run, Fail, s.lastNet, s.after) && CallsOf(moves) == [FailRunCall]
  {
    var a, b := Serve(i, 0, s.after), Event.ReplyLost(i, true);
    ExecPair(h, w, a, b, [ReportFailure(i)] + Delivery(i, s.lastNet, s.after));
    LostReport(h, w, i, s.after);
    ReportTask(h, Do(h, Do(h, w, a), b), i, s.lastNet, s.after);
  }

  lemma ExecPair(h: Handler, w: World, a: Event, b: Event, rest: seq<Event>)
    requires Quiet(a) && Quiet(b)
    ensures Exec(h, w, [a, b] + rest) == Exec(h, Do(h, Do(h, w, a), b), rest)
    ensures CallsOf([a, b] + rest) == CallsOf(rest)
  {
    assert [a, b] + rest == [a] + ([b] + rest);
    ExecOne(h, w, a, [b] + rest);
    ExecOne(h, Do(h, w, a), b, rest);
  }

  /** The report that was served but whose reply was lost. */
  lemma LostReport(h: Handler, w: World, i: nat, after: AfterFail)
    requires i < |w.sessions| && w.sessions[i].phase.Sent?
    requires w.sessions[i].phase.req.Fail? || w.sessions[i].phase.req.Complete?
    ensures var w' := Do(h, Do(h, w, Serve(i, 0, after)), Event.ReplyLost(i, true));
            && w'.task == Execute(w.task, w.sessions[i].run, w.sessions[i].phase.req, 0, after).0
            && i < |w'.sessions| && w'.sessions[i].phase == Failing && w'.sessions[i].run == w.sessions[i].run
  {
  }

  /** One that panics before: the request is left behind, its client reports. */
  lemma PanicBeforeTask(h: Handler, w: World, i: nat, s: Script)
    requires i < |w.sessions| && w.sessions[i].phase.Sent?
    requires (w.sessions[i].phase.req.Fail? || w.sessions[i].phase.req.Complete?)
    ensures var n := |w.sessions|;
            var moves := [GiveUp(i, true)] + ([ReportFailure(n)] + Delivery(n, s.lastNet, s.after));
            && Exec(h, w, moves).task == After(w.task, w.sessions[i].run, Fail, s.lastNet, s.after)
            && CallsOf(moves) == [FailRunCall]
  {
    ExecOne(h, w, GiveUp(i, true), [ReportFailure(|w.sessions|)] + Delivery(|w.sessions|, s.lastNet, s.after));
    ReportTask(h, Do(h, w, GiveUp(i, true)), |w.sessions|, s.lastNet, s.after);
  }

  lemma FirstDeliveryTask(h: Handler, w: World, i: nat, s: Script)
    requires i < |w.sessions| && w.sessions[i].phase.Sent?
    requires (w.sessions[i].phase.req.Fail? || w.sessions[i].phase.req.Complete?)
    ensures var run, req, n := w.sessions[i].run, w.sessions[i].phase.req, |w.sessions|;
            var t := After(w.task, run, req, s.firstNet, s.after);
            && Exec(h, w, FirstDelivery(i, n, s)).task
                == (if s.firstNet.DriverPanic? then After(t, run, Fail, s.lastNet, s.after) else t)
            && CallsOf(FirstDelivery(i, n, s)) == if s.firstNet.DriverPanic? then [FailRunCall] else []
  {
    if !s.firstNet.DriverPanic? {
      DeliveryTask(h, w, i, s.firstNet, s.after);
    } else if s.firstNet.ran {
      PanicAfterTask(h, w, i, s);
    } else {
      PanicBeforeTask(h, w, i, s);
    }
  }

  predicate Panics(s: Script) {
    PanicsFirst(s) || (EndingCall(s) != [] && s.firstNet.DriverPanic?)
  }

  function FinalCalls(s: Script): seq<TerminalCall> {
    EndingCall(s) + if Panics(s) then [FailRunCall] else []
  }

  /** The store executeTask leaves when the handler ran. */
  function FinalTask(s: Script): Task {
    var first := if EndingCall(s) == [] then s.during
                 else After(s.during, s.run, RequestOf(EndingCall(s)[0], Result(s)), s.firstNet, s.after);
    if Panics(s) then After(first, s.run, Fail, s.lastNet, s.after) else first
  }

  lemma PanicMoves(h: Handler, w: World, i: nat, s: Script)
    requires Plays(h, w, i, s) && PanicsFirst(s)
    ensures Exec(h, w, Moves(s, i, |w.sessions|)).task == FinalTask(s)
    ensures CallsOf(Moves(s, i, |w.sessions|)) == FinalCalls(s)
  {
    ExecOne(h, w, Raise(i), [ReportFailure(i)] + Delivery(i, s.lastNet, s.after));
    ReportTask(h, Do(h, w, Raise(i)), i, s.lastNet, s.after);
  }

  lemma CompleteMoves(h: Handler, w: World, i: nat, s: Script)
    requires Plays(h, w, i, s) && EndingCall(s) == [CompleteRunCall]
    ensures Exec(h, w, Moves(s, i, |w.sessions|)).task == FinalTask(s)
    ensures CallsOf(Moves(s, i, |w.sessions|)) == FinalCalls(s)
  {
    ExecOne(h, w, Finish(i), FirstDelivery(i, |w.sessions|, s));
    FirstDeliveryTask(h, Do(h, w, Finish(i)), i, s);
  }

  lemma FirstReport(h: Handler, w: World, i: nat, s: Script)
    requires i < |w.sessions| && w.sessions[i].phase == Failing
    ensures var run, n := w.sessions[i].run, |w.sessions|;
            var t, moves := After(w.task, run, Fail, s.firstNet, s.after), [ReportFailure(i)] + FirstDelivery(i, n, s);
            && Exec(h, w, moves).task
                == (if s.firstNet.DriverPanic? then After(t, run, Fail, s.lastNet, s.after) else t)
            && CallsOf(moves) == [FailRunCall] + if s.firstNet.DriverPanic? then [FailRunCall] else []
  {
    ExecOne(h, w, ReportFailure(i), FirstDelivery(i, |w.sessions|, s));
    FirstDeliveryTask(h, Do(h, w, ReportFailure(i)), i, s);
  }

  lemma FailMoves(h: Handler, w: World, i: nat, s: Script)
    requires Plays(h, w, i, s) && EndingCall(s) == [FailRunCall] && !PanicsFirst(s)
    ensures Exec(h, w, Moves(s, i, |w.sessions|)).task == FinalTask(s)
    ensures CallsOf(Moves(s, i, |w.sessions|)) == FinalCalls(s)
  {
    ExecOne(h, w, Raise(i), [ReportFailure(i)] + FirstDelivery(i, |w.sessions|, s));
    FirstReport(h, Do(h, w, Raise(i)), i, s);
  }

  /** The store executeTask leaves, and its calls, are those of a session of the replay protocol
      whose handler ends the same way. */
  lemma WorkerIsSession(h: Handler, w: World, i: nat, s: Script)
    requires Plays(h, w, i, s)
    ensures Exec(h, w, Moves(s, i, |w.sessions|)).task == FinalTask(s)
    ensures CallsOf(Moves(s, i, |w.sessions|)) == FinalCalls(s)
  {
    if PanicsFirst(s) {
      PanicMoves(h, w, i, s);
    } else if EndingCall(s) == [CompleteRunCall] {
      CompleteMoves(h, w, i, s);
    } else if EndingCall(s) == [FailRunCall] {
      FailMoves(h, w, i, s);
    } else {
      assert [Crash(i)] == [Crash(i)] + [];
      ExecOne(h, w, Crash(i), []);
    }
  }

  /** So the laws of durable execution hold for what the worker reports: in any reachable world,
      the store it leaves is still one history, and a result it stores is the handler's on it. */
  lemma ReportsAreDurable(h: Handler, now: int, script: seq<Event>, i: nat, s: Script) returns (H: seq<Value>)
    requires NoHarmfulCollision(h) && Plays(h, Exec(h, Start(now), script), i, s)
    ensures var t := FinalTask(s);
            && Live(h, H) && Committed(t) == Table(h, H)
            && (t.state == Completed ==> t.result.Some? && h(H) == Return(t.result.value))
  {
    var moves := Moves(s, i, |Exec(h, Start(now), script).sessions|);
    var before;
    before, H := Reach(h, now, script, moves);
    ExecAppend(h, Start(now), script, moves);
    WorkerIsSession(h, Exec(h, Start(now), script), i, s);
  }
}
