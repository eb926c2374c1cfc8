/** The task context object: the code of one session of the replay protocol.  When a method
    succeeds it has taken the protocol's steps on its own fields; when it fails, its contract says
    what the store and the object then hold. */
module TaskContext {
  import opened Prelude
  import opened Store
  import opened Names
  import opened Replay
  import opened Durations

  /** The store seen over a network that may lose requests and replies. */
  class Database {
    var task: Task

    constructor (t: Task)
      ensures task == t
    {
      task := t;
    }

    /** A stored procedure call; `None` is a transport error, after which the procedure may or
        may not have run. */
    method Call(k: nat, req: Request, lease: int) returns (answer: Option<Reply>)
      requires !req.Fail?
      modifies this
      ensures answer.Some? ==> (task, answer.value) == Execute(old(task), k, req, lease, Exhausted)
      ensures answer.None? ==> task == old(task) || task == Execute(old(task), k, req, lease, Exhausted).0
    {
      var (t, reply) := Execute(task, k, req, lease, Exhausted);
      var arrives: bool, replied: bool := *, *;
      if arrives {
        task := t;
      }
      answer := if arrives && replied then Some(reply) else None;
    }

    /** An extend_claim call. */
    method Extend(k: nat, extendBy: int) returns (answer: Option<Reply>)
      modifies this
      ensures answer.Some? ==> (task, answer.value) == ExtendClaim(old(task), k, extendBy)
      ensures answer.None? ==> task in {old(task), ExtendClaim(old(task), k, extendBy).0}
    {
      var (t, reply) := ExtendClaim(task, k, extendBy);
      var arrives: bool, replied: bool := *, *;
      if arrives {
        task := t;
      }
      answer := if arrives && replied then Some(reply) else None;
    }

    method ReadCheckpoint(name: string) returns (ok: bool, v: Option<Value>)
      ensures ok ==> v == Lookup(map[], Committed(task), name)
    {
      ok := *;
      v := if name in task.checkpoints then Some(task.checkpoints[name].value) else None;
    }

    method ReadCheckpoints(k: nat) returns (ok: bool, rows: map<string, Value>)
      ensures ok ==> rows == CheckpointsFor(task, k)
    {
      ok := *;
      rows := CheckpointsFor(task, k);
    }
  }

  datatype Result<+T> = Ok(value: T) | Err(error: Error)

  datatype Error = Suspend | CancelledError | FailedRunError | OtherError

  /** `mapTaskStateError` on an answer that is not a success. */
  function MapError(answer: Option<Reply>): (e: Error)
    ensures e == CancelledError <==> answer == Some(TaskCancelled)
    ensures e == FailedRunError <==> answer == Some(RunEnded)
    ensures e != Suspend
  {
    match answer
    case Some(TaskCancelled) => CancelledError
    case Some(RunEnded) => FailedRunError
    case _ => OtherError
  }

  datatype StepHandle = StepHandle(name: string, checkpointName: string, done: bool, state: Value)

  /** A sleep whose proposed wake time the store has just accepted. */
  function Slept(begun: Session, wakeAt: int): Session
    requires begun.phase.Missed?
  {
    Receive(begun.(phase := Answered(Persist(begun.phase.checkpoint, Time(wakeAt)), Done)), true, false)
  }

  class Context {
    const db: Database
    const run: nat
    const claimTimeout: int
    const norm: Value -> Value              // encoding to JSON and decoding again
    var checkpointCache: map<string, Value>
    var stepNameCounter: map<string, nat>
    var leaseNotices: nat                   // how often onLeaseExtended was told
    ghost var seen: seq<Value>              // what the store holds of what the handler has observed
    ghost var observed: seq<Value>          // what it has observed in memory
    ghost var passed: map<nat, int>

    /** The protocol's view of this object. */
    ghost function View(phase: Phase): Session
      reads this
    {
      Session(run, stepNameCounter, checkpointCache, seen, passed, phase)
    }

    /** Recorded wake times survive the round trip. */
    ghost predicate KeepsTimes() {
      forall at :: norm(Time(at)) == Time(at)
    }

    constructor (db: Database, run: nat, claimTimeout: int, norm: Value -> Value)
      ensures this.db == db && this.run == run && this.claimTimeout == claimTimeout && this.norm == norm
      ensures View(Preloading) == Session(run, map[], map[], [], map[], Preloading) && observed == []
    {
      this.db, this.run, this.claimTimeout, this.norm := db, run, claimTimeout, norm;
      checkpointCache, stepNameCounter, leaseNotices := map[], map[], 0;
      seen, observed, passed := [], [], map[];
    }

    /** The preload of `newTaskContext`. */
    method Load(ghost h: Handler) returns (ok: bool)
      requires checkpointCache == map[]
      modifies this
      ensures ok ==> View(Idle) == Local(h, db.task, old(View(Preloading)), Preload(0))
      ensures !ok ==> View(Idle) == old(View(Idle))
    {
      var rows;
      ok, rows := db.ReadCheckpoints(run);
      if ok {
        checkpointCache := rows;
      }
    }

    method NextCheckpointName(name: string) returns (cp: string)
      modifies this`stepNameCounter
      ensures (stepNameCounter, cp) == NextName(old(stepNameCounter), name)
    {
      var count := 1;
      if name in stepNameCounter {
        count := stepNameCounter[name] + 1;
      }
      stepNameCounter := stepNameCounter[name := count];
      cp := name;
      if count != 1 {
        cp := name + "#" + Decimal(count);
      }
    }

    method LookupCheckpoint(cp: string) returns (r: Result<Option<Value>>)
      modifies this`checkpointCache
      ensures r.Err? ==> r.error == OtherError
      ensures cp in old(checkpointCache) ==> r == Ok(Some(old(checkpointCache)[cp]))
      ensures r.Ok? ==> r.value == Lookup(old(checkpointCache), Committed(db.task), cp)
      ensures checkpointCache ==
              if r.Ok? && r.value.Some? then old(checkpointCache)[cp := r.value.value] else old(checkpointCache)
    {
      if cp in checkpointCache {
        assert checkpointCache[cp := checkpointCache[cp]] == checkpointCache;
        return Ok(Some(checkpointCache[cp]));
      }
      var ok, v := db.ReadCheckpoint(cp);
      if !ok {
        return Err(OtherError);
      }
      if v.Some? {
        checkpointCache := checkpointCache[cp := v.value];
      }
      r := Ok(v);
    }

    /** Writes to the store first; the cache follows only after the store has accepted, with the
        encoded value. */
    method PersistCheckpoint(cp: string, v: Value) returns (r: Result<()>)
      modifies this`checkpointCache, this`leaseNotices, db
      ensures r.Ok? ==> (db.task, Done) == Execute(old(db.task), run, Persist(cp, norm(v)), claimTimeout, Exhausted)
      ensures r.Err? ==>
              db.task in {old(db.task), Execute(old(db.task), run, Persist(cp, norm(v)), claimTimeout, Exhausted).0}
      ensures r.Err? && r.error in {CancelledError, FailedRunError} ==> db.task == old(db.task)
      ensures r == Err(CancelledError) ==> old(db.task).state == Cancelled
      ensures r == Err(FailedRunError) ==> run < |old(db.task).runs| && old(db.task).runs[run].state == State.Failed
      ensures r.Err? ==> r.error != Suspend
      ensures checkpointCache == if r.Ok? then old(checkpointCache)[cp := norm(v)] else old(checkpointCache)
      ensures leaseNotices == old(leaseNotices) + if r.Ok? then 1 else 0
    {
      var raw := norm(v);
      var answer := db.Call(run, Persist(cp, raw), claimTimeout);
      if answer != Some(Done) {
        return Err(MapError(answer));
      }
      leaseNotices := leaseNotices + 1;
      checkpointCache := checkpointCache[cp := raw];
      r := Ok(());
    }

    /** Begins a step: the protocol's `Begin` event, unless the read fails. */
    method BeginStep(name: string) returns (r: Result<StepHandle>)
      modifies this
      ensures leaseNotices == old(leaseNotices)
      ensures stepNameCounter == NextName(old(stepNameCounter), name).0
      ensures r.Ok? ==> r.value.name == name && r.value.checkpointName == NextName(old(stepNameCounter), name).1
      ensures r.Ok? && r.value.done ==>
                View(Idle) == BeginAction(old(View(Idle)), Replay.Step(name), Committed(db.task), 0)
                && seen == old(seen) + [r.value.state] && observed == old(observed) + [r.value.state]
      ensures r.Ok? && !r.value.done ==>
                View(Missed(r.value.checkpointName)) == BeginAction(old(View(Idle)), Replay.Step(name),
                    Committed(db.task), 0)
                && observed == old(observed)
      ensures r.Ok? ==>
                Lookup(old(checkpointCache), Committed(db.task), r.value.checkpointName)
                == if r.value.done then Some(r.value.state) else None
      ensures r.Err? ==> r.error == OtherError && checkpointCache == old(checkpointCache)
      ensures r.Err? ==> seen == old(seen) && observed == old(observed)
    {
      var cp := NextCheckpointName(name);
      var found := LookupCheckpoint(cp);
      match found {
        case Err(e) => r := Err(e);
        case Ok(None) => r := Ok(StepHandle(name, cp, false, Json("")));
        case Ok(Some(v)) =>
          seen, observed := seen + [v], observed + [v];
          r := Ok(StepHandle(name, cp, true, v));
      }
    }

    /** Completes a step: the write, and on its reply the protocol's `Receive`.  The handler goes
        on with the value in memory, the store and every replay with its decoding. */
    method CompleteStep(h: StepHandle, v: Value) returns (r: Result<Value>)
      modifies this, db
      ensures stepNameCounter == old(stepNameCounter)
      ensures h.done ==>
              r == Ok(h.state) && db.task == old(db.task) && View(Idle) == old(View(Idle)) && observed == old(observed)
      ensures !h.done && r.Ok? ==>
                r.value == v
                && (db.task, Done) == Execute(old(db.task), run, Persist(h.checkpointName, norm(v)), claimTimeout,
                    Exhausted)
                && View(Idle) == Receive(old(View(Answered(Persist(h.checkpointName, norm(v)), Done))), false, false)
                && observed == old(observed) + [v]
      ensures r.Err? ==> View(Failing) == old(View(Failing)) && observed == old(observed)
      ensures r.Err? ==>
              db.task in {old(db.task),
                  Execute(old(db.task), run, Persist(h.checkpointName, norm(v)), claimTimeout, Exhausted).0}
    {
      if h.done {
        return Ok(h.state);
      }
      var done := PersistCheckpoint(h.checkpointName, v);
      match done {
        case Err(e) => r := Err(e);
        case Ok(_) =>
          seen, observed := seen + [norm(v)], observed + [v];
          r := Ok(v);
      }
    }

    /** `Step` on a step function whose outcome is given: a stored step never uses it, a computed
        value is returned as it is and stored encoded. */
    method Step(name: string, fn: Result<Value>) returns (r: Result<Value>, ran: bool)
      modifies this, db
      ensures stepNameCounter == NextName(old(stepNameCounter), name).0
      ensures !ran && r.Ok? ==>
                db.task == old(db.task)
                && Lookup(old(checkpointCache), Committed(old(db.task)), NextName(old(stepNameCounter), name).1)
                    == Some(r.value)
      ensures ran ==>
                Lookup(old(checkpointCache), Committed(old(db.task)), NextName(old(stepNameCounter), name).1) == None
      ensures ran && r.Ok? ==> fn == r
      ensures ran && r.Ok? ==>
                (db.task, Done) == Execute(old(db.task), run,
                    Persist(NextName(old(stepNameCounter), name).1, norm(r.value)), claimTimeout, Exhausted)
      ensures ran && fn.Err? ==> r == fn && db.task == old(db.task)
      ensures r.Ok? ==>
              observed == old(observed) + [r.value] && seen == old(seen) + [if ran then norm(r.value) else r.value]
      ensures r.Ok? ==>
                NextName(old(stepNameCounter), name).1 in checkpointCache
                && checkpointCache[NextName(old(stepNameCounter), name).1] == if ran then norm(r.value) else r.value
    {
      ran := false;
      var begun := BeginStep(name);
      if begun.Err? {
        return Err(begun.error), false;
      }
      if begun.value.done {
        return Ok(begun.value.state), false;
      }
      ran := true;
      if fn.Err? {
        return fn, true;
      }
      r := CompleteStep(begun.value, fn.value);
    }

    method ScheduleRun(wakeAt: int) returns (r: Result<()>)
      modifies db
      ensures r.Ok? ==> (db.task, Done) == Execute(old(db.task), run, Schedule(wakeAt), claimTimeout, Exhausted)
      ensures r.Err? ==> r.error == OtherError
      ensures r.Err? ==>
              db.task in {old(db.task), Execute(old(db.task), run, Schedule(wakeAt), claimTimeout, Exhausted).0}
    {
      var answer := db.Call(run, Schedule(wakeAt), claimTimeout);
      if answer != Some(Done) {
        return Err(OtherError);
      }
      r := Ok(());
    }

    /** The stored wake time if there is one, else the proposed one, which is stored first. */
    method RecordWake(stepName: string, wakeAt: int) returns (r: Result<int>)
      requires KeepsTimes()
      modifies this, db
      ensures stepNameCounter == NextName(old(stepNameCounter), stepName).0
      ensures r.Ok? ==>
                var cp := NextName(old(stepNameCounter), stepName).1;
                var stored := Lookup(old(checkpointCache), Committed(old(db.task)), cp);
                var begun := BeginAction(old(View(Idle)), Replay.Sleep(stepName), Committed(old(db.task)), wakeAt);
                && View(Holding(r.value)) == (if begun.phase.Missed? then Slept(begun, wakeAt) else begun)
                && (stored.Some? ==> WakeTime(stored.value, wakeAt) == Some(r.value) && db.task == old(db.task))
                && (stored.None? ==>
                      && r.value == wakeAt && cp in checkpointCache && checkpointCache[cp] == Time(wakeAt)
                      && (db.task, Done)
                          == Execute(old(db.task), run, Persist(cp, Time(wakeAt)), claimTimeout, Exhausted))
      ensures r.Err? ==> r.error != Suspend
      ensures seen == old(seen) && observed == old(observed) && passed == old(passed)
    {
      var cp := NextCheckpointName(stepName);
      var found := LookupCheckpoint(cp);
      if found.Err? {
        return Err(found.error);
      }
      if found.value.Some? {
        var parsed := WakeTime(found.value.value, wakeAt);
        if parsed.None? {
          return Err(OtherError);
        }
        return Ok(parsed.value);
      }
      var stored := PersistCheckpoint(cp, Time(wakeAt));
      if stored.Err? {
        return Err(stored.error);
      }
      r := Ok(wakeAt);
    }

    /** Past the wake time the handler goes on, before it the run is put to sleep until then. */
    method PassWake(actual: int, localNow: int) returns (r: Result<()>)
      modifies this, db
      ensures stepNameCounter == old(stepNameCounter) && checkpointCache == old(checkpointCache)
      ensures r.Ok? ==>
                && localNow >= actual && View(Idle) == CheckWake(old(View(Holding(actual))), localNow)
                && observed == old(observed) + [Time(actual)] && db.task == old(db.task)
      ensures r == Err(Suspend) ==>
                && localNow < actual && View(Sent(Schedule(actual))) == CheckWake(old(View(Holding(actual))), localNow)
                && run < |db.task.runs| && db.task.runs[run].state == Sleeping
                    && db.task.runs[run].available == Some(actual)
      ensures !r.Ok? ==> seen == old(seen) && observed == old(observed) && passed == old(passed)
    {
      if localNow < actual {
        var scheduled := ScheduleRun(actual);
        if scheduled.Err? {
          return Err(scheduled.error);
        }
        return Err(Suspend);
      }
      passed := passed[|seen| := localNow];
      seen, observed := seen + [Time(actual)], observed + [Time(actual)];
      r := Ok(());
    }

    /** The wake time in force: the stored one if there is one, else the proposed one, which is
        stored before anything else happens.  `localNow` is the clock reading after that. */
    method SleepUntil(stepName: string, wakeAt: int, localNow: int) returns (r: Result<()>, ghost wake: int)
      requires KeepsTimes()
      modifies this, db
      ensures stepNameCounter == NextName(old(stepNameCounter), stepName).0
      ensures r.Ok? || r == Err(Suspend) ==>
                var begun := BeginAction(old(View(Idle)), Replay.Sleep(stepName), Committed(old(db.task)), wakeAt);
                var held := if begun.phase.Missed? then Slept(begun, wakeAt) else begun;
                && held.phase == Holding(wake)
                && (r.Ok? ==> View(Idle) == CheckWake(held, localNow))
                && (r == Err(Suspend) ==> View(Sent(Schedule(wake))) == CheckWake(held, localNow))
      ensures var cp := NextName(old(stepNameCounter), stepName).1;
              var stored := Lookup(old(checkpointCache), Committed(old(db.task)), cp);
              && (r.Ok? || r == Err(Suspend) ==>
                    && (stored.Some? ==> WakeTime(stored.value, wakeAt) == Some(wake))
                    && (stored.None? ==>
                        wake == wakeAt && cp in checkpointCache && checkpointCache[cp] == Time(wakeAt)))
              && (r.Ok? ==>
                    && localNow >= wake && observed == old(observed) + [Time(wake)]
                    && db.task == (if stored.Some? then old(db.task) else
                                     Execute(old(db.task), run, Persist(cp, Time(wakeAt)), claimTimeout, Exhausted).0))
              && (r == Err(Suspend) ==>
                    && localNow < wake && run < |db.task.runs|
                    && db.task.runs[run].state == Sleeping && db.task.runs[run].available == Some(wake))
      ensures !r.Ok? ==> seen == old(seen) && observed == old(observed) && passed == old(passed)
    {
      wake := wakeAt;
      var actual := RecordWake(stepName, wakeAt);
      if actual.Err? {
        return Err(actual.error), wake;
      }
      wake := actual.value;
      r := PassWake(actual.value, localNow);
    }

    /** The lease asked of the store is, in whole seconds, the one announced to the watchdog:
        after a success the claim expires exactly that long after the store's current time. */
    method Heartbeat(d: int) returns (r: Result<()>, ghost announced: int)
      requires IsInt64(d) && IsInt64(claimTimeout)
      modifies this`leaseNotices, db
      ensures announced == NormalizeLease(d, claimTimeout)
      ensures r.Ok? ==>
                run < |db.task.runs| && db.task.runs[run].state == Running
                && db.task.runs[run].lease == Some(db.task.now + announced)
                && announced >= if d > 0 then d else claimTimeout
      ensures r.Ok? ==> leaseNotices == old(leaseNotices) + 1
      ensures !r.Ok? ==> leaseNotices == old(leaseNotices) && r.error != Suspend
      ensures Committed(db.task) == Committed(old(db.task))
    {
      var lease := NormalizeLease(d, claimTimeout);
      announced := lease;
      LeaseInSeconds(d, claimTimeout);
      var answer := db.Extend(run, DurationSeconds(lease) * SECOND);
      if answer != Some(Done) {
        return Err(MapError(answer)), announced;
      }
      leaseNotices := leaseNotices + 1;
      r := Ok(());
    }

    /** `AwaitEvent` without a timeout. */
    method AwaitEvent(name: string, event: string) returns (r: Result<Value>)
      modifies this, db
      ensures stepNameCounter == NextName(old(stepNameCounter), name).0
      ensures r.Ok? ==>
                var cp := NextName(old(stepNameCounter), name).1;
                var begun := BeginAction(old(View(Idle)), Replay.Await(name, event), Committed(old(db.task)), 0);
                && observed == old(observed) + [r.value] && seen == old(seen) + [r.value]
                && (begun.phase.Idle? ==> db.task == old(db.task) && View(Idle) == begun)
                && (begun.phase.Missed? ==>
                      && (db.task, Found(r.value)) == Execute(old(db.task), run, Request.Wait(cp, event), claimTimeout,
                          Exhausted)
                      && View(Idle) == Receive(begun.(phase := Answered(Request.Wait(cp, event), Found(r.value))),
                          false, false))
      ensures r == Err(Suspend) ==>
                var cp := NextName(old(stepNameCounter), name).1;
                && (db.task, Suspended) == Execute(old(db.task), run, Request.Wait(cp, event), claimTimeout, Exhausted)
                && View(Missed(cp)) == BeginAction(old(View(Idle)), Replay.Await(name, event), Committed(old(db.task)),
                    0)
      ensures !r.Ok? ==> seen == old(seen) && observed == old(observed)
    {
      var cp := NextCheckpointName(name);
      var found := LookupCheckpoint(cp);
      if found.Err? {
        return Err(found.error);
      }
      if found.value.Some? {
        seen, observed := seen + [found.value.value], observed + [found.value.value];
        return Ok(found.value.value);
      }
      var answer := db.Call(run, Request.Wait(cp, event), claimTimeout);
      if answer == Some(Suspended) {
        return Err(Suspend);
      }
      if answer.None? || !answer.value.Found? {
        return Err(MapError(answer));
      }
      checkpointCache := checkpointCache[cp := answer.value.value];
      seen, observed := seen + [answer.value.value], observed + [answer.value.value];
      r := Ok(answer.value.value);
    }
  }
}
