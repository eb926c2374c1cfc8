/** One task in the Absurd store: its runs (attempt `k + 1` is `runs[k]`), its committed
    checkpoints, the queue's events, and the stored procedures that change them.  Each
    procedure call is one atomic step. */
module Store {
  import opened Prelude

  /** A stored JSON value; times are the values `SleepUntil` stores. */
  datatype Value = Json(text: string) | Time(at: int)

  datatype State = Pending | Sleeping | Running | Completed | Failed | Cancelled

  /** An event wait: the checkpoint it will fill and the event it waits for. */
  datatype Wait = Wait(checkpoint: string, event: string)

  /** `available == None` stands for `infinity`; `lease == None` for a claim without expiry. */
  datatype Run = Run(state: State, available: Option<int>, lease: Option<int>, wait: Option<Wait>)

  datatype Checkpoint = Checkpoint(value: Value, owner: nat)

  datatype Task = Task(now: int, state: State, runs: seq<Run>, checkpoints: map<string, Checkpoint>,
                       events: map<string, Value>, result: Option<Value>)

  /** What a procedure call answers.  `TaskCancelled` is SQLSTATE AB001, `RunEnded` is AB002,
      `Refused` any other error. */
  datatype Reply = Done | Found(value: Value) | Suspended | TaskCancelled | RunEnded | Refused

  /** How `fail_run` leaves the task: a next attempt, no attempts left, or the cancellation
      policy.  The retry strategy that decides this is an oracle. */
  datatype AfterFail = Retry(at: int) | Exhausted | PolicyCancel

  predicate Blank(name: string) {
    forall i | 0 <= i < |name| :: name[i] == ' '
  }

  function NewTask(now: int): Task {
    Task(now, Pending, [Run(Pending, Some(now), None, None)], map[], map[], None)
  }

  function WithRun(t: Task, k: nat, r: Run): Task
    requires k < |t.runs|
  {
    t.(runs := t.runs[k := r])
  }

  // ----- procedures a run's worker calls -----

  function SetCheckpoint(t: Task, k: nat, name: string, v: Value, extendBy: int): (Task, Reply) {
    if Blank(name) || k >= |t.runs| then (t, Refused)
    else if t.state == Cancelled then (t, TaskCancelled)
    else if t.runs[k].state == Failed then (t, RunEnded)
    else
      var r := t.runs[k];
      var lease := if extendBy > 0 && r.state == Running && r.lease.Some? then Some(t.now + extendBy) else r.lease;
      var leased := WithRun(t, k, r.(lease := lease));
      if name !in t.checkpoints || t.checkpoints[name].owner <= k then
        (leased.(checkpoints := t.checkpoints[name := Checkpoint(v, k)]), Done)
      else
        (leased, Done)
  }

  /** `await_event` without a timeout. */
  function AwaitEvent(t: Task, k: nat, name: string, event: string): (Task, Reply) {
    if Blank(event) then (t, Refused)
    else if name in t.checkpoints then (t, Found(t.checkpoints[name].value))
    else if k >= |t.runs| then (t, Refused)
    else if t.state == Cancelled then (t, TaskCancelled)
    else if t.runs[k].state != Running then (t, Refused)
    else if event in t.events then
      (t.(checkpoints := t.checkpoints[name := Checkpoint(t.events[event], k)]), Found(t.events[event]))
    else
      (WithRun(t, k, Run(Sleeping, None, None, Some(Wait(name, event)))).(state := Sleeping), Suspended)
  }

  function ScheduleRun(t: Task, k: nat, wakeAt: int): (Task, Reply) {
    if k >= |t.runs| || t.runs[k].state != Running then (t, Refused)
    else
      (WithRun(t, k, t.runs[k].(state := Sleeping, available := Some(wakeAt), lease := None)).(state := Sleeping), Done)
  }

  function CompleteRun(t: Task, k: nat, result: Value): (Task, Reply) {
    if k >= |t.runs| then (t, Refused)
    else match t.runs[k].state
      case Running =>
        (WithRun(t, k, t.runs[k].(state := Completed, wait := None)).(state := Completed, result := Some(result)), Done)
      case Cancelled => (t, TaskCancelled)
      case Failed => (t, RunEnded)
      case _ => (t, Refused)
  }

  function FailRun(t: Task, k: nat, after: AfterFail): (Task, Reply) {
    if k >= |t.runs| then (t, Refused)
    else match t.runs[k].state
      case Cancelled => (t, TaskCancelled)
      case Failed => (t, RunEnded)
      case Pending => (t, Refused)
      case Completed => (t, Refused)
      case _ =>
        var failed := WithRun(t, k, t.runs[k].(state := Failed, wait := None));
        match after
        case Exhausted => (failed.(state := Failed), Done)
        case PolicyCancel => (failed.(state := Cancelled), Done)
        case Retry(at) =>
          var s := if at > t.now then Sleeping else Pending;
          (failed.(state := s, runs := failed.runs + [Run(s, Some(Max(at, t.now)), None, None)]), Done)
  }

  function ExtendClaim(t: Task, k: nat, extendBy: int): (Task, Reply) {
    if extendBy <= 0 || k >= |t.runs| then (t, Refused)
    else if t.state == Cancelled then (t, TaskCancelled)
    else if t.runs[k].state == Failed then (t, RunEnded)
    else if t.runs[k].state != Running || t.runs[k].lease.None? then (t, Refused)
    else (WithRun(t, k, t.runs[k].(lease := Some(t.now + extendBy))), Done)
  }

  // ----- reads -----

  /** `get_task_checkpoint_states`: what run `k` preloads; later attempts' rows are hidden. */
  function CheckpointsFor(t: Task, k: nat): map<string, Value> {
    map n | n in t.checkpoints && t.checkpoints[n].owner <= k :: t.checkpoints[n].value
  }

  function Committed(t: Task): map<string, Value> {
    map n | n in t.checkpoints :: t.checkpoints[n].value
  }

  // ----- steps of the queue -----

  predicate Claimable(t: Task, k: nat) {
    && k < |t.runs|
    && t.runs[k].state in {Pending, Sleeping}
    && t.state in {Pending, Sleeping, Running}
    && t.runs[k].available.Some? && t.runs[k].available.value <= t.now
  }

  function Claim(t: Task, k: nat, timeout: int): Task
    requires Claimable(t, k)
  {
    var lease := if timeout > 0 then Some(t.now + timeout) else None;
    WithRun(t, k, t.runs[k].(state := Running, lease := lease, available := Some(t.now))).(state := Running)
  }

  predicate LeaseExpired(t: Task, k: nat) {
    k < |t.runs| && t.runs[k].state == Running && t.runs[k].lease.Some? && t.runs[k].lease.value <= t.now
  }

  /** The sweep at the start of `claim_task`: an expired claim fails its run. */
  function Sweep(t: Task, k: nat, after: AfterFail): Task {
    if LeaseExpired(t, k) then FailRun(t, k, after).0 else t
  }

  function CancelledRun(r: Run): Run {
    if r.state in {Completed, Failed, Cancelled} then r.(wait := None)
    else r.(state := Cancelled, lease := None, wait := None)
  }

  function CancelTask(t: Task): Task {
    if t.state in {Completed, Failed, Cancelled} then t
    else t.(state := Cancelled, runs := seq(|t.runs|, i requires 0 <= i < |t.runs| => CancelledRun(t.runs[i])))
  }

  /** `retry_task` in place. */
  function RetryTask(t: Task): Task {
    if t.state != Failed then t
    else t.(state := Pending, runs := t.runs + [Run(Pending, Some(t.now), None, None)])
  }

  predicate WaitsFor(r: Run, event: string) {
    r.state == Sleeping && r.wait.Some? && r.wait.value.event == event
  }

  /** `emit_event`: the first payload of an event wins; it fills the checkpoint of the waiting
      run and wakes it.  Only a task's newest run can wait: all earlier ones have failed. */
  function EmitEvent(t: Task, event: string, payload: Value): Task {
    if Blank(event) || event in t.events then t
    else
      var noted := t.(events := t.events[event := payload]);
      if |t.runs| == 0 || !WaitsFor(t.runs[|t.runs| - 1], event) then noted
      else
        var k := |t.runs| - 1;
        var r := t.runs[k];
        WithRun(noted, k, Run(Pending, Some(t.now), None, None))
          .(state := Pending, checkpoints := t.checkpoints[r.wait.value.checkpoint := Checkpoint(payload, k)])
  }

  function Tick(t: Task, d: nat): Task {
    t.(now := t.now + d)
  }

  // ----- what the procedures keep, for every task state -----

  /** A call made for a run that has failed or was cancelled changes nothing, so a worker that
      lost its run can only be told so. */
  lemma EndedRunCallsChangeNothing(t: Task, k: nat, name: string, v: Value, extendBy: int, event: string, at: int,
      after: AfterFail)
    requires k < |t.runs|
    requires t.runs[k].state == Failed || (t.runs[k].state == Cancelled && t.state == Cancelled)
    ensures SetCheckpoint(t, k, name, v, extendBy).0 == t
    ensures AwaitEvent(t, k, name, event).0 == t
    ensures ScheduleRun(t, k, at) == (t, Refused)
    ensures CompleteRun(t, k, v).0 == t && CompleteRun(t, k, v).1 in {TaskCancelled, RunEnded}
    ensures FailRun(t, k, after).0 == t && FailRun(t, k, after).1 in {TaskCancelled, RunEnded}
    ensures ExtendClaim(t, k, extendBy).0 == t
    ensures !Blank(name) ==> SetCheckpoint(t, k, name, v, extendBy).1 in {TaskCancelled, RunEnded}
  {
  }
}
