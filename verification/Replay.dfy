/** The replay protocol.  A handler is replayed from its start by every session of its task; a
    session is one worker executing one claimed run.  Sessions, the store, crashes, lost
    requests, late requests, lost replies, lease takeovers and zombies are interleaved by an
    arbitrary script of events. */
module Replay {
  import opened Prelude
  import opened Store
  import opened Names

  /** What a sequential handler does next, given the values it has observed so far. */
  datatype Action =
    | Step(name: string)
    | Sleep(name: string)
    | Await(name: string, event: string)
    | Return(result: Value)
    | Throw
  {
    predicate Takes() {
      Step? || Sleep? || Await?
    }
  }

  type Handler = seq<Value> -> Action

  /** A stored procedure call on the wire. */
  datatype Request =
    | Persist(checkpoint: string, value: Value)
    | Wait(checkpoint: string, event: string)
    | Schedule(wakeAt: int)
    | Complete(result: Value)
    | Fail

  /** Where a session stands.  `Late(req)`: the client is gone (crashed, or gave up waiting) but
      its request may still reach the store. */
  datatype Phase =
    | Preloading
    | Idle
    | Missed(checkpoint: string)
    | Holding(wake: int)
    | Sent(req: Request)
    | Answered(req: Request, reply: Reply)
    | Failing
    | Late(req: Request)
    | Gone

  /** `passed[i]` is the local clock reading at which the sleep at position `i` was passed. */
  datatype Session = Session(run: nat, counters: map<string, nat>, cache: map<string, Value>,
                             seen: seq<Value>, passed: map<nat, int>, phase: Phase)

  datatype World = World(task: Task, sessions: seq<Session>)

  // ----- the task context's own steps -----

  /** `lookupCheckpoint`: the cache first, then the store. */
  function Lookup(cache: map<string, Value>, committed: map<string, Value>, name: string): Option<Value> {
    if name in cache then Some(cache[name])
    else if name in committed then Some(committed[name])
    else None
  }

  /** The wake time a stored sleep value stands for; an empty text falls back to the proposed
      time, any other text does not parse. */
  function WakeTime(v: Value, proposed: int): Option<int> {
    match v
    case Time(at) => Some(at)
    case Json(text) => if text == "" then Some(proposed) else None
  }

  function Observe(s: Session, v: Value): Session {
    s.(seen := s.seen + [v], phase := Idle)
  }

  /** Numbers the step name, then answers it from the cache or the store. */
  function BeginAction(s: Session, a: Action, committed: map<string, Value>, proposed: int): Session
    requires a.Takes()
  {
    var (counters, cp) := NextName(s.counters, a.name);
    match Lookup(s.cache, committed, cp)
    case None => s.(counters := counters, phase := Missed(cp))
    case Some(v) =>
      var known := s.(counters := counters, cache := s.cache[cp := v]);
      if a.Sleep? then
        match WakeTime(v, proposed)
        case None => known.(phase := Failing)
        case Some(w) => known.(phase := Holding(w))
      else Observe(known, v)
  }

  /** The request for an action whose checkpoint was not found. */
  function RequestFor(a: Action, cp: string, computed: Value, proposed: int): Request {
    match a
    case Sleep(_) => Persist(cp, Time(proposed))
    case Await(_, event) => Request.Wait(cp, event)
    case _ => Persist(cp, computed)
  }

  /** After the recorded wake time the handler goes on; before it the run is rescheduled. */
  function CheckWake(s: Session, localNow: int): Session
    requires s.phase.Holding?
  {
    if localNow < s.phase.wake then s.(phase := Sent(Schedule(s.phase.wake)))
    else Observe(s.(passed := s.passed[|s.seen| := localNow]), Time(s.phase.wake))
  }

  /** The session after an error on request `req`: `fail_run` is next, except after a terminal
      call.  `again`: a terminal call is followed by a `fail_run` too, as the TypeScript worker does
      when `complete_run` fails, and the Go worker when the database driver panics. */
  function AfterError(s: Session, req: Request, again: bool): Session {
    s.(phase := if (req.Fail? || req.Complete?) && !again then Gone else Failing)
  }

  /** The session after the store's answer arrived. */
  function Receive(s: Session, isSleep: bool, again: bool): Session
    requires s.phase.Answered?
  {
    var req := s.phase.req;
    match s.phase.reply
    case TaskCancelled => s.(phase := Gone)
    case RunEnded => s.(phase := Gone)
    case Refused => AfterError(s, req, again)
    case Suspended => s.(phase := Gone)
    case Found(v) =>
      if req.Wait? then Observe(s.(cache := s.cache[req.checkpoint := v]), v) else s.(phase := Gone)
    case Done =>
      if req.Persist? then
        var known := s.(cache := s.cache[req.checkpoint := req.value]);
        if isSleep && req.value.Time? then known.(phase := Holding(req.value.at)) else Observe(known, req.value)
      else s.(phase := Gone)
  }

  /** The store executes a request of run `k`. */
  function Execute(t: Task, k: nat, req: Request, lease: int, after: AfterFail): (Task, Reply) {
    match req
    case Persist(cp, v) => SetCheckpoint(t, k, cp, v, lease)
    case Wait(cp, event) => AwaitEvent(t, k, cp, event)
    case Schedule(wakeAt) => ScheduleRun(t, k, wakeAt)
    case Complete(v) => CompleteRun(t, k, v)
    case Fail => FailRun(t, k, after)
  }

  // ----- events of the world -----

  datatype Event =
    | ClaimRun(run: nat, timeout: int)                       // a worker claims a run
    | Preload(i: nat)                                        // newTaskContext reads the checkpoints
    | Begin(i: nat, proposed: int)                           // the handler's next step, sleep or wait
    | Compute(i: nat, value: Value, time: int)               // the step function returns; the write is sent
    | LocalClock(i: nat, localNow: int)                      // SleepUntil reads the worker's clock
    | Finish(i: nat)                                         // the handler returns or throws
    | Raise(i: nat)                                          // a read fails, a step function throws or panics
    | ReportFailure(i: nat)                                  // fail_run is sent
    | Serve(i: nat, lease: int, after: AfterFail)            // a request reaches the store, on time or late
    | ReplyArrives(i: nat, again: bool)
    | ReplyLost(i: nat, again: bool)
    | GiveUp(i: nat, again: bool)                            // the client stops waiting for a reply
    | Crash(i: nat)
    | Heartbeat(run: nat, extendBy: int)                     // anybody extends the claim of a run
    | LeaseSweep(run: nat, after: AfterFail)
    | CancelByUser
    | RetryByUser
    | Emit(event: string, payload: Value)
    | TimePasses(d: nat)

  function SetSession(w: World, i: nat, s: Session): World
    requires i < |w.sessions|
  {
    w.(sessions := w.sessions[i := s])
  }

  /** One event; an event that cannot happen now changes nothing. */
  function Do(h: Handler, w: World, e: Event): World {
    match e
    case ClaimRun(k, timeout) =>
      if Claimable(w.task, k) then
        World(Claim(w.task, k, timeout), w.sessions + [Session(k, map[], map[], [], map[], Preloading)])
      else w
    case LeaseSweep(k, after) => w.(task := Sweep(w.task, k, after))
    case CancelByUser => w.(task := CancelTask(w.task))
    case RetryByUser => w.(task := RetryTask(w.task))
    case Emit(event, payload) => w.(task := EmitEvent(w.task, event, payload))
    case TimePasses(d) => w.(task := Tick(w.task, d))
    case Heartbeat(k, extendBy) => w.(task := ExtendClaim(w.task, k, extendBy).0)
    case Serve(i, lease, after) => if i < |w.sessions| then ServeOne(w, i, lease, after) else w
    case GiveUp(i, fac) => if i < |w.sessions| then GiveUpOne(w, i, fac) else w
    case _ => if e.i < |w.sessions| then SetSession(w, e.i, Local(h, w.task, w.sessions[e.i], e)) else w
  }

  /** Events that only concern one session; the store is read at most. */
  function Local(h: Handler, t: Task, s: Session, e: Event): Session {
    match e
    case Preload(_) => if s.phase.Preloading? then s.(cache := CheckpointsFor(t, s.run), phase := Idle) else s
    case Begin(_, proposed) =>
      if s.phase.Idle? && h(s.seen).Takes() then BeginAction(s, h(s.seen), Committed(t), proposed) else s
    case Compute(_, v, time) =>
      if s.phase.Missed? then s.(phase := Sent(RequestFor(h(s.seen), s.phase.checkpoint, v, time))) else s
    case LocalClock(_, localNow) => if s.phase.Holding? then CheckWake(s, localNow) else s
    case Finish(_) =>
      if !s.phase.Idle? then s
      else (match h(s.seen)
            case Return(v) => s.(phase := Sent(Complete(v)))
            case Throw => s.(phase := Failing)
            case _ => s)
    case Raise(_) => if s.phase.Idle? || s.phase.Missed? || s.phase.Holding? then s.(phase := Failing) else s
    case ReportFailure(_) => if s.phase.Failing? then s.(phase := Sent(Fail)) else s
    case ReplyArrives(_, fac) => if s.phase.Answered? then Receive(s, h(s.seen).Sleep?, fac) else s
    case ReplyLost(_, fac) => if s.phase.Answered? then AfterError(s, s.phase.req, fac) else s
    case Crash(_) => s.(phase := if s.phase.Sent? then Late(s.phase.req) else Gone)
    case _ => s
  }

  function ServeOne(w: World, i: nat, lease: int, after: AfterFail): World
    requires i < |w.sessions|
  {
    var s := w.sessions[i];
    match s.phase
    case Sent(req) =>
      var (t, reply) := Execute(w.task, s.run, req, lease, after);
      World(t, w.sessions[i := s.(phase := Answered(req, reply))])
    case Late(req) =>
      World(Execute(w.task, s.run, req, lease, after).0, w.sessions[i := s.(phase := Gone)])
    case _ => w
  }

  /** The client treats the call as failed; the request itself may still arrive. */
  function GiveUpOne(w: World, i: nat, again: bool): World
    requires i < |w.sessions|
  {
    var s := w.sessions[i];
    if s.phase.Sent? then
      w.(sessions := w.sessions[i := s.(phase := Late(s.phase.req))] + [AfterError(s, s.phase.req, again)])
    else w
  }

  function Exec(h: Handler, w: World, script: seq<Event>): World
    decreases |script|
  {
    if script == [] then w else Exec(h, Do(h, w, script[0]), script[1..])
  }

  function Start(now: int): World {
    World(NewTask(now), [])
  }
}
