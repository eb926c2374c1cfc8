/** The Go worker loop: a counting semaphore, a one-slot signal channel, a wait group, and one
    goroutine per claimed task, under every interleaving. */
module RunWorker {
  import opened Prelude

  /** A goroutine: it executes its task, gives its slot back, signals, and leaves the group. */
  datatype Stage = Ready | Executing | Executed | Released | Signalled | Left

  datatype Goroutine = Goroutine(task: nat, stage: Stage)

  /** The loop: about to look at the context, full and waiting, claiming for `free` slots,
      starting the claimed tasks, pausing, waiting for the group, returned. */
  datatype Loop = Checking | Waiting | Claiming(free: nat) | Starting(rest: seq<nat>) | Pausing | Draining | Returned

  datatype World = World(concurrency: nat, batch: nat, cancelled: bool, loop: Loop, sem: nat, token: bool,
                         group: nat, gs: seq<Goroutine>, claimed: seq<nat>, executed: seq<nat>)

  datatype Event =
    | Cancel
    | Look                            // reads ctx.Err and len(sem)
    | WakeByToken
    | WakeByTimer
    | WakeByCancel
    | Claimed(tasks: seq<nat>)        // claimTasks returned these
    | ClaimFailed
    | StartNext                       // sem <-, wg.Add, go
    | PauseOver
    | GroupDone                       // wg.Wait returns
    | Move(i: nat)                    // goroutine i takes its next step

  function PositiveOr(value: int, fallback: nat): nat {
    if value > 0 then value else fallback
  }

  /** `normalizeWorkerOptions` on the two sizes. */
  function StartWorker(concurrency: int, batch: int): World {
    var c := PositiveOr(concurrency, 1);
    World(c, PositiveOr(batch, c), false, Checking, 0, false, 0, [], [], [])
  }

  predicate HoldsSlot(g: Goroutine) {
    g.stage in {Ready, Executing, Executed}
  }

  /** The quantity a claim asks for. */
  function Asked(w: World): nat
    requires w.loop.Claiming?
  {
    Min(w.batch, w.loop.free)
  }

  function MoveOne(w: World, i: nat): World
    requires i < |w.gs|
  {
    var g := w.gs[i];
    match g.stage
    case Ready => w.(gs := w.gs[i := g.(stage := Executing)], executed := w.executed + [i])
    case Executing => w.(gs := w.gs[i := g.(stage := Executed)])
    case Executed => if w.sem > 0 then w.(gs := w.gs[i := g.(stage := Released)], sem := w.sem - 1) else w
    case Released => w.(gs := w.gs[i := g.(stage := Signalled)], token := true)
    case Signalled => if w.group > 0 then w.(gs := w.gs[i := g.(stage := Left)], group := w.group - 1) else w
    case Left => w
  }

  /** One step of anybody; a step that is not possible now changes nothing.  Sending on the
      full semaphore, and receiving from the empty one, block. */
  function Do(w: World, e: Event): World {
    match e
    case Cancel => w.(cancelled := true)
    case Look =>
      if !w.loop.Checking? then w
      else if w.cancelled then w.(loop := Draining)
      else if w.concurrency <= w.sem then w.(loop := Waiting)
      else w.(loop := Claiming(w.concurrency - w.sem))
    case WakeByToken => if w.loop.Waiting? && w.token then w.(token := false, loop := Checking) else w
    case WakeByTimer => if w.loop.Waiting? then w.(loop := Checking) else w
    case WakeByCancel => if (w.loop.Waiting? || w.loop.Pausing?) && w.cancelled then w.(loop := Draining) else w
    case Claimed(tasks) =>
      if w.loop.Claiming? && |tasks| <= Asked(w) then
        if tasks == [] then w.(loop := Pausing)
        else w.(loop := Starting(tasks), claimed := w.claimed + tasks)
      else w
    case ClaimFailed =>
      if w.loop.Claiming? then w.(loop := if w.cancelled then Draining else Pausing) else w
    case StartNext =>
      if !w.loop.Starting? then w
      else if w.loop.rest == [] then w.(loop := Checking)
      else if w.sem >= w.concurrency then w
      else w.(sem := w.sem + 1, group := w.group + 1, gs := w.gs + [Goroutine(w.loop.rest[0], Ready)],
              loop := Starting(w.loop.rest[1..]))
    case PauseOver => if w.loop.Pausing? then w.(loop := Checking) else w
    case GroupDone => if w.loop.Draining? && w.group == 0 then w.(loop := Returned) else w
    case Move(i) => if i < |w.gs| then MoveOne(w, i) else w
  }

  function Run(w: World, script: seq<Event>): World
    decreases |script|
  {
    if script == [] then w else Run(Do(w, script[0]), script[1..])
  }

  // ----- counting -----

  ghost function Held(gs: seq<Goroutine>): nat {
    if gs == [] then 0 else Held(gs[..|gs| - 1]) + (if HoldsSlot(gs[|gs| - 1]) then 1 else 0)
  }

  ghost function Present(gs: seq<Goroutine>): nat {
    if gs == [] then 0 else Present(gs[..|gs| - 1]) + (if gs[|gs| - 1].stage != Left then 1 else 0)
  }

  /** How many tasks are being executed right now. */
  ghost function InFlight(gs: seq<Goroutine>): nat {
    if gs == [] then 0 else InFlight(gs[..|gs| - 1]) + (if gs[|gs| - 1].stage == Executing then 1 else 0)
  }

  lemma {:induction false} CountUpdate(gs: seq<Goroutine>, i: nat, g: Goroutine)
    requires i < |gs|
    ensures Held(gs[i := g]) == Held(gs) + (if HoldsSlot(g) then 1 else 0) - (if HoldsSlot(gs[i]) then 1 else 0)
    ensures Present(gs[i := g])
         == Present(gs) + (if g.stage != Left then 1 else 0) - (if gs[i].stage != Left then 1 else 0)
    decreases |gs|
  {
    var hs := gs[i := g];
    var n := |gs| - 1;
    if i == n {
      assert hs[..n] == gs[..n];
    } else {
      assert hs[..n] == gs[..n][i := g];
      CountUpdate(gs[..n], i, g);
    }
  }

  lemma CountAppend(gs: seq<Goroutine>, g: Goroutine)
    ensures Held(gs + [g]) == Held(gs) + (if HoldsSlot(g) then 1 else 0)
    ensures Present(gs + [g]) == Present(gs) + (if g.stage != Left then 1 else 0)
  {
    assert (gs + [g])[..|gs|] == gs;
  }

  lemma {:induction false} CountBounds(gs: seq<Goroutine>)
    ensures InFlight(gs) <= Held(gs)
    ensures forall i | 0 <= i < |gs| :: HoldsSlot(gs[i]) ==> Held(gs) > 0
    ensures Present(gs) == 0 ==> forall i | 0 <= i < |gs| :: gs[i].stage == Left
    ensures forall i | 0 <= i < |gs| :: gs[i].stage != Left ==> Present(gs) > 0
    decreases |gs|
  {
    if gs != [] {
      var hs := gs[..|gs| - 1];
      CountBounds(hs);
      assert forall i | 0 <= i < |hs| :: gs[i] == hs[i];
    }
  }

  // ----- the invariant -----

  ghost predicate SomeoneWillSignal(w: World) {
    exists i :: 0 <= i < |w.gs| && w.gs[i].stage == Released
  }

  function TasksOf(gs: seq<Goroutine>): seq<nat> {
    seq(|gs|, i requires 0 <= i < |gs| => gs[i].task)
  }

  /** Every goroutine that is past its start appears once in the execution log, no other does. */
  ghost predicate LogOk(w: World) {
    && (forall i | 0 <= i < |w.gs| :: multiset(w.executed)[i] == if w.gs[i].stage == Ready then 0 else 1)
    && (forall i | i in w.executed :: i < |w.gs|)
  }

  ghost predicate Inv(w: World) {
    && w.concurrency >= 1 && w.batch >= 1
    && w.sem == Held(w.gs) && w.sem <= w.concurrency
    && w.group == Present(w.gs)
    && w.claimed == TasksOf(w.gs) + (if w.loop.Starting? then w.loop.rest else [])
    && (w.loop.Claiming? ==> 1 <= w.loop.free && w.sem + w.loop.free <= w.concurrency)
    && (w.loop.Starting? ==> w.sem + |w.loop.rest| <= w.concurrency)
    && (w.loop.Waiting? && w.sem < w.concurrency ==> w.token || SomeoneWillSignal(w))
    && (w.loop.Returned? ==> w.group == 0)
    && LogOk(w)
  }

  lemma MoveLog(w: World, i: nat)
    requires Inv(w) && i < |w.gs|
    ensures LogOk(MoveOne(w, i))
  {
    if w.gs[i].stage == Ready {
      assert multiset(w.executed + [i]) == multiset(w.executed) + multiset{i};
    }
  }

  /** The signal is sent after the slot is free, so a waiting loop is never forgotten. */
  lemma MoveSignals(w: World, i: nat)
    requires Inv(w) && i < |w.gs|
    ensures var w' := MoveOne(w, i); w'.loop.Waiting? && w'.sem < w'.concurrency ==> w'.token || SomeoneWillSignal(w')
  {
    var w' := MoveOne(w, i);
    if w.gs[i].stage == Executed && w.sem > 0 {
      assert w'.gs[i].stage == Released;
    } else if w.gs[i].stage != Released && SomeoneWillSignal(w) {
      var j :| 0 <= j < |w.gs| && w.gs[j].stage == Released;
      assert w'.gs[j].stage == Released;
    }
  }

  lemma MoveCounts(w: World, i: nat)
    requires w.sem == Held(w.gs) && w.group == Present(w.gs) && i < |w.gs|
    ensures var w' := MoveOne(w, i);
            w'.sem == Held(w'.gs) && w'.sem <= w.sem && w'.group == Present(w'.gs)
            && TasksOf(w'.gs) == TasksOf(w.gs) && |w'.gs| == |w.gs|
  {
    CountBounds(w.gs);
    var w' := MoveOne(w, i);
    assert w'.gs == w.gs[i := w'.gs[i]];
    CountUpdate(w.gs, i, w'.gs[i]);
    assert TasksOf(w'.gs) == TasksOf(w.gs);
  }

  lemma MoveKeeps(w: World, i: nat)
    requires Inv(w) && i < |w.gs|
    ensures Inv(MoveOne(w, i))
  {
    MoveLog(w, i);
    MoveSignals(w, i);
    MoveCounts(w, i);
    if w.group == 0 {
      GroupEmptyStays(w, i);
    }
  }

  lemma GroupEmptyStays(w: World, i: nat)
    requires w.group == Present(w.gs) && i < |w.gs| && w.group == 0
    ensures MoveOne(w, i) == w
  {
    CountBounds(w.gs);
  }

  lemma StartLog(w: World, g: Goroutine)
    requires LogOk(w) && g.stage == Ready
    ensures LogOk(w.(gs := w.gs + [g]))
  {
    assert |w.gs| !in w.executed;
  }

  lemma StartClaimed(w: World, g: Goroutine, rest: seq<nat>)
    requires w.claimed == TasksOf(w.gs) + ([g.task] + rest)
    ensures w.claimed == TasksOf(w.gs + [g]) + rest
  {
    assert TasksOf(w.gs + [g]) == TasksOf(w.gs) + [g.task];
  }

  lemma StartCounts(w: World)
    requires Inv(w) && w.loop.Starting? && w.loop.rest != [] && w.sem < w.concurrency
    ensures var w' := Do(w, StartNext); w'.sem == Held(w'.gs) && w'.group == Present(w'.gs)
  {
    CountAppend(w.gs, Goroutine(w.loop.rest[0], Ready));
  }

  lemma StartKeeps(w: World)
    requires Inv(w) && w.loop.Starting? && w.loop.rest != []
    ensures Inv(Do(w, StartNext))
  {
    var g := Goroutine(w.loop.rest[0], Ready);
    StartCounts(w);
    StartLog(w, g);
    assert w.loop.rest == [g.task] + w.loop.rest[1..];
    StartClaimed(w, g, w.loop.rest[1..]);
  }

  /** A step of the claim loop that starts nothing leaves the goroutines and their log alone. */
  ghost predicate SameTasks(w: World, w': World) {
    && w'.concurrency == w.concurrency && w'.batch == w.batch && w'.sem == w.sem && w'.group == w.group
    && w'.gs == w.gs && w'.executed == w.executed
  }

  lemma LoopKeeps(w: World, w': World)
    requires Inv(w) && SameTasks(w, w')
    requires w'.claimed == TasksOf(w.gs) + (if w'.loop.Starting? then w'.loop.rest else [])
    requires w'.loop.Claiming? ==> 1 <= w'.loop.free && w.sem + w'.loop.free <= w.concurrency
    requires w'.loop.Starting? ==> w.sem + |w'.loop.rest| <= w.concurrency
    requires w'.loop.Waiting? && w.sem < w.concurrency ==> w.loop.Waiting? && w'.token == w.token
    requires w'.loop.Returned? ==> w.group == 0
    ensures Inv(w')
  {
    assert SomeoneWillSignal(w') == SomeoneWillSignal(w);
  }

  lemma ClaimedKeeps(w: World, tasks: seq<nat>)
    requires Inv(w)
    ensures Inv(Do(w, Claimed(tasks)))
  {
    if w.loop.Claiming? && |tasks| <= Asked(w) {
      assert TasksOf(w.gs) + [] == TasksOf(w.gs);
      LoopKeeps(w, Do(w, Claimed(tasks)));
    }
  }

  lemma DoKeeps(w: World, e: Event)
    requires Inv(w)
    ensures Inv(Do(w, e))
  {
    if e.Move? {
      if e.i < |w.gs| {
        MoveKeeps(w, e.i);
      }
    } else if e.StartNext? && w.loop.Starting? && w.loop.rest != [] {
      StartKeeps(w);
    } else if e.Claimed? {
      ClaimedKeeps(w, e.tasks);
    } else {
      LoopKeeps(w, Do(w, e));
    }
  }

  lemma {:induction false} RunKeeps(w: World, script: seq<Event>)
    requires Inv(w)
    ensures Inv(Run(w, script))
    decreases |script|
  {
    if script != [] {
      DoKeeps(w, script[0]);
      RunKeeps(Do(w, script[0]), script[1..]);
    }
  }

  // ----- what holds in every reachable state -----

  lemma Reachable(concurrency: int, batch: int, script: seq<Event>)
    ensures Inv(Run(StartWorker(concurrency, batch), script))
  {
    RunKeeps(StartWorker(concurrency, batch), script);
  }

  /** At most `concurrency` tasks are in flight, and sending on the semaphore never blocks. */
  lemma CapacityRespected(concurrency: int, batch: int, script: seq<Event>)
    ensures var w := Run(StartWorker(concurrency, batch), script);
            && InFlight(w.gs) <= w.concurrency
            && (w.loop.Starting? && w.loop.rest != [] ==> w.sem < w.concurrency && Do(w, StartNext) != w)
  {
    var w := Run(StartWorker(concurrency, batch), script);
    Reachable(concurrency, batch, script);
    CountBounds(w.gs);
    if w.loop.Starting? && w.loop.rest != [] {
      assert |Do(w, StartNext).gs| == |w.gs| + 1;
    }
  }

  /** Every claimed task has at most one goroutine that executes it at most once; when RunWorker
      returns, each claimed task has been executed exactly once and has finished. */
  lemma EachTaskOnce(concurrency: int, batch: int, script: seq<Event>)
    ensures var w := Run(StartWorker(concurrency, batch), script);
            && |w.gs| <= |w.claimed|
            && (forall i | 0 <= i < |w.gs| :: w.gs[i].task == w.claimed[i] && multiset(w.executed)[i] <= 1)
            && (w.loop.Returned? ==>
                  && |w.gs| == |w.claimed|
                  && forall i | 0 <= i < |w.gs| :: w.gs[i].stage == Left && multiset(w.executed)[i] == 1)
  {
    var w := Run(StartWorker(concurrency, batch), script);
    Reachable(concurrency, batch, script);
    CountBounds(w.gs);
    assert forall i | 0 <= i < |w.gs| :: TasksOf(w.gs)[i] == w.claimed[i];
  }

  /** No lost wakeup: while the loop waits after finding no capacity, a free slot means that the
      signal is in the channel or a goroutine is about to send it. */
  lemma NoLostWakeup(concurrency: int, batch: int, script: seq<Event>)
    ensures var w := Run(StartWorker(concurrency, batch), script);
            w.loop.Waiting? && w.sem < w.concurrency ==> w.token || SomeoneWillSignal(w)
  {
    Reachable(concurrency, batch, script);
  }

  /** A worker that waits with every goroutine finished has its signal: it cannot sleep on with
      all slots free. */
  lemma IdleWorkerHasToken(concurrency: int, batch: int, script: seq<Event>)
    requires var w := Run(StartWorker(concurrency, batch), script);
             w.loop.Waiting? && forall i | 0 <= i < |w.gs| :: w.gs[i].stage in {Signalled, Left}
    ensures Run(StartWorker(concurrency, batch), script).token
  {
    var w := Run(StartWorker(concurrency, batch), script);
    Reachable(concurrency, batch, script);
    NothingHeld(w.gs);
  }

  lemma {:induction false} NothingHeld(gs: seq<Goroutine>)
    requires forall i | 0 <= i < |gs| :: !HoldsSlot(gs[i])
    ensures Held(gs) == 0
    decreases |gs|
  {
    if gs != [] {
      NothingHeld(gs[..|gs| - 1]);
    }
  }
}
