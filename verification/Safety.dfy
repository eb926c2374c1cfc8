/** What holds for every handler, whatever its step names: only one session can write, no row ever
    changes, and no session is misled about the rows there are.  No history is needed for this. */
module Safety {
  import opened Prelude
  import opened Store
  import opened Names
  import opened Replay
  import opened History
  import opened Invariant
  import opened Steps

  // ----- the invariant -----

  /** The row `cp` holds `v`. */
  predicate Holds(t: Task, cp: string, v: Value) {
    cp in t.checkpoints && t.checkpoints[cp].value == v
  }

  /** The row of a sleep that was or will be passed at `wake`: that time, or the empty text for
      which every attempt takes the time it proposes. */
  predicate SleepRow(t: Task, cp: string, wake: int) {
    Holds(t, cp, Time(wake)) || Holds(t, cp, Json(""))
  }

  /** The action in progress is the handler's next one, under the name it is counted by. */
  ghost predicate Counted(h: Handler, s: Session, cp: string) {
    h(s.seen).Takes() && cp == NameAt(h, s.seen) && CountersOk(h, s, true)
  }

  ghost predicate CountedRequest(h: Handler, s: Session, req: Request) {
    match req
    case Persist(cp, v) => Counted(h, s, cp) && !h(s.seen).Await? && (h(s.seen).Sleep? ==> v.Time?)
    case Wait(cp, event) => Counted(h, s, cp) && h(s.seen).Await?
    case _ => true
  }

  /** An answer that grants something stands in the store. */
  predicate AnswerStands(t: Task, req: Request, reply: Reply) {
    && (reply.Found? ==> req.Wait? && Holds(t, req.checkpoint, reply.value))
    && (reply.Done? && req.Persist? ==> Holds(t, req.checkpoint, req.value))
    && (reply.Done? ==> !req.Wait?)
  }

  ghost predicate PhaseSound(h: Handler, t: Task, s: Session) {
    match s.phase
    case Preloading => CountersOk(h, s, false)
    case Idle => CountersOk(h, s, false)
    case Missed(cp) => Counted(h, s, cp)
    case Holding(wake) => h(s.seen).Sleep? && CountersOk(h, s, true) && SleepRow(t, NameAt(h, s.seen), wake)
    case Sent(req) => CountedRequest(h, s, req)
    case Late(req) => CountedRequest(h, s, req)
    case Answered(req, reply) => CountedRequest(h, s, req) && AnswerStands(t, req, reply)
    case _ => true
  }

  /** Position `k` of what the session observed is a sleep it has slept through. */
  ghost predicate SleptThrough(h: Handler, t: Task, s: Session, k: nat)
    requires k < |s.seen| && h(s.seen[..k]).Sleep?
  {
    && s.seen[k].Time? && SleepRow(t, NameAt(h, s.seen[..k]), s.seen[k].at)
    && k in s.passed && s.passed[k] >= s.seen[k].at
  }

  ghost predicate SleepsSound(h: Handler, t: Task, s: Session) {
    forall k: nat | k < |s.seen| && h(s.seen[..k]).Sleep? :: SleptThrough(h, t, s, k)
  }

  /** The cache is a part of the store. */
  predicate CacheSound(t: Task, cache: map<string, Value>) {
    forall n | n in cache :: Holds(t, n, cache[n])
  }

  ghost predicate SessionSound(h: Handler, t: Task, s: Session) {
    && s.run < |t.runs|
    && CacheSound(t, s.cache)
    && SleepsSound(h, t, s)
    && PhaseSound(h, t, s)
  }

  /** The row that a session is about to write is not there yet. */
  predicate Unwritten(t: Task, s: Session) {
    match s.phase
    case Missed(cp) => cp !in t.checkpoints
    case Sent(req) => req.Persist? || req.Wait? ==> req.checkpoint !in t.checkpoints
    case Late(req) => req.Persist? || req.Wait? ==> req.checkpoint !in t.checkpoints
    case _ => true
  }

  predicate WaitUnwritten(t: Task)
    requires |t.runs| > 0
  {
    var last := t.runs[Newest(t)];
    last.wait.Some? ==> last.wait.value.checkpoint !in t.checkpoints
  }

  ghost predicate Sound(h: Handler, w: World) {
    && RunsOk(w.task)
    && WaitUnwritten(w.task)
    && OneCurrent(w)
    && (forall i | 0 <= i < |w.sessions| :: SessionSound(h, w.task, w.sessions[i]))
    && (forall i | 0 <= i < |w.sessions| && Current(w.task, w.sessions[i]) :: Unwritten(w.task, w.sessions[i]))
  }

  lemma InitSound(h: Handler, now: int)
    ensures Sound(h, Start(now))
  {
  }

  /** No row is changed or lost. */
  predicate RowsKept(t: Task, t': Task) {
    forall n | n in t.checkpoints :: Holds(t', n, t.checkpoints[n].value)
  }

  lemma SessionStays(h: Handler, t: Task, t': Task, s: Session)
    requires SessionSound(h, t, s) && RowsKept(t, t') && |t.runs| <= |t'.runs|
    ensures SessionSound(h, t', s)
  {
    forall k: nat | k < |s.seen| && h(s.seen[..k]).Sleep? ensures SleptThrough(h, t', s, k) {
      assert SleptThrough(h, t, s, k);
    }
  }

  // ----- one session's own steps -----

  /** What a change inside one session must respect. */
  ghost predicate SoundChange(h: Handler, t: Task, s: Session, s': Session) {
    && SessionSound(h, t, s') && s'.run == s.run
    && (Potent(s') ==> Potent(s))
    && (Unwritten(t, s) ==> Unwritten(t, s'))
  }

  lemma SoundChangeKeeps(h: Handler, w: World, i: nat, s': Session)
    requires Sound(h, w) && i < |w.sessions| && SoundChange(h, w.task, w.sessions[i], s')
    ensures Sound(h, SetSession(w, i, s'))
  {
  }

  lemma CountersAfter(h: Handler, s: Session, v: Value)
    requires CountersOk(h, s, true) && h(s.seen).Takes()
    ensures CountersOk(h, Observe(s, v), false)
  {
    assert (s.seen + [v])[..|s.seen|] == s.seen;
  }

  /** The session observes one more value. */
  lemma ObserveSound(h: Handler, t: Task, s: Session, v: Value)
    requires s.run < |t.runs| && CacheSound(t, s.cache) && SleepsSound(h, t, s)
    requires CountersOk(h, s, true) && h(s.seen).Takes()
    requires h(s.seen).Sleep? ==>
               && v.Time? && SleepRow(t, NameAt(h, s.seen), v.at)
               && |s.seen| in s.passed && s.passed[|s.seen|] >= v.at
    ensures SessionSound(h, t, Observe(s, v))
  {
    var s' := Observe(s, v);
    CountersAfter(h, s, v);
    forall k: nat | k < |s'.seen| && h(s'.seen[..k]).Sleep? ensures SleptThrough(h, t, s', k) {
      if k < |s.seen| {
        assert s'.seen[..k] == s.seen[..k];
        assert SleptThrough(h, t, s, k);
      } else {
        assert s'.seen[..k] == s.seen;
      }
    }
  }

  lemma SleepsCarry(h: Handler, t: Task, s: Session, s': Session)
    requires SleepsSound(h, t, s) && s'.seen == s.seen && s'.passed == s.passed
    ensures SleepsSound(h, t, s')
  {
    forall k: nat | k < |s'.seen| && h(s'.seen[..k]).Sleep? ensures SleptThrough(h, t, s', k) {
      assert SleptThrough(h, t, s, k);
    }
  }

  lemma LookupHolds(t: Task, cache: map<string, Value>, name: string)
    requires CacheSound(t, cache)
    ensures var found := Lookup(cache, Committed(t), name);
            (found.Some? ==> Holds(t, name, found.value)) && (found.None? ==> name !in t.checkpoints)
  {
  }

  lemma BeginSound(h: Handler, t: Task, s: Session, proposed: int)
    requires SessionSound(h, t, s) && s.phase.Idle? && h(s.seen).Takes()
    ensures SoundChange(h, t, s, BeginAction(s, h(s.seen), Committed(t), proposed))
  {
    var a := h(s.seen);
    var (counters, cp) := NextName(s.counters, a.name);
    NextUse(h, s);
    LookupHolds(t, s.cache, cp);
    var found := Lookup(s.cache, Committed(t), cp);
    var known := s.(counters := counters, cache := if found.Some? then s.cache[cp := found.value] else s.cache);
    assert CountersOk(h, s.(counters := counters), true);
    assert CountersOk(h, known, true);
    SleepsCarry(h, t, s, known);
    if found.Some? && !a.Sleep? {
      ObserveSound(h, t, known, found.value);
    } else {
      var s' := BeginAction(s, a, Committed(t), proposed);
      SleepsCarry(h, t, s, s');
      assert CountersOk(h, s', true);
    }
  }

  /** A stored row enters the cache. */
  lemma KnownSound(h: Handler, t: Task, s: Session, cp: string, v: Value)
    requires SessionSound(h, t, s) && Holds(t, cp, v) && CountersOk(h, s, true)
    ensures var known := s.(cache := s.cache[cp := v]);
            CacheSound(t, known.cache) && SleepsSound(h, t, known) && CountersOk(h, known, true)
  {
    SleepsCarry(h, t, s, s.(cache := s.cache[cp := v]));
  }

  lemma ReceivePersist(h: Handler, t: Task, s: Session, again: bool)
    requires SessionSound(h, t, s) && s.phase.Answered? && s.phase.req.Persist? && s.phase.reply.Done?
    ensures SoundChange(h, t, s, Receive(s, h(s.seen).Sleep?, again))
  {
    var cp, v := s.phase.req.checkpoint, s.phase.req.value;
    var known := s.(cache := s.cache[cp := v]);
    KnownSound(h, t, s, cp, v);
    if h(s.seen).Sleep? {
      var held := known.(phase := Holding(v.at));
      CountersCarry(h, known, held.phase);
      SleepsCarry(h, t, known, held);
    } else {
      ObserveSound(h, t, known, v);
    }
  }

  lemma ReceiveFound(h: Handler, t: Task, s: Session, again: bool)
    requires SessionSound(h, t, s) && s.phase.Answered? && s.phase.reply.Found?
    ensures SoundChange(h, t, s, Receive(s, h(s.seen).Sleep?, again))
  {
    var cp, v := s.phase.req.checkpoint, s.phase.reply.value;
    KnownSound(h, t, s, cp, v);
    ObserveSound(h, t, s.(cache := s.cache[cp := v]), v);
  }

  lemma ReceiveSound(h: Handler, t: Task, s: Session, again: bool)
    requires SessionSound(h, t, s) && s.phase.Answered?
    ensures SoundChange(h, t, s, Receive(s, h(s.seen).Sleep?, again))
  {
    if s.phase.reply.Found? {
      ReceiveFound(h, t, s, again);
    } else if s.phase.reply.Done? && s.phase.req.Persist? {
      ReceivePersist(h, t, s, again);
    } else {
      SleepsCarry(h, t, s, Receive(s, h(s.seen).Sleep?, again));
    }
  }

  lemma ClockSound(h: Handler, t: Task, s: Session, localNow: int)
    requires SessionSound(h, t, s) && s.phase.Holding?
    ensures SoundChange(h, t, s, CheckWake(s, localNow))
  {
    if localNow >= s.phase.wake {
      var woken := s.(passed := s.passed[|s.seen| := localNow]);
      assert CountersOk(h, woken, true);
      forall k: nat | k < |woken.seen| && h(woken.seen[..k]).Sleep? ensures SleptThrough(h, t, woken, k) {
        assert SleptThrough(h, t, s, k);
      }
      ObserveSound(h, t, woken, Time(s.phase.wake));
    } else {
      SleepsCarry(h, t, s, CheckWake(s, localNow));
    }
  }

  /** A change of phase only. */
  lemma PhaseChangeSound(h: Handler, t: Task, s: Session, phase: Phase)
    requires SessionSound(h, t, s)
    requires PhaseSound(h, t, s.(phase := phase)) && (Potent(s.(phase := phase)) ==> Potent(s))
    requires Unwritten(t, s) ==> Unwritten(t, s.(phase := phase))
    ensures SoundChange(h, t, s, s.(phase := phase))
  {
    SleepsCarry(h, t, s, s.(phase := phase));
  }

  lemma CountersCarry(h: Handler, s: Session, phase: Phase)
    ensures forall b :: CountersOk(h, s, b) ==> CountersOk(h, s.(phase := phase), b)
  {
  }

  lemma PreloadSound(h: Handler, t: Task, s: Session)
    requires SessionSound(h, t, s) && s.phase.Preloading?
    ensures SoundChange(h, t, s, s.(cache := CheckpointsFor(t, s.run), phase := Idle))
  {
    var s' := s.(cache := CheckpointsFor(t, s.run), phase := Idle);
    assert CountersOk(h, s', false);
    SleepsCarry(h, t, s, s');
  }

  lemma LocalSound(h: Handler, t: Task, s: Session, e: Event)
    requires SessionSound(h, t, s)
    ensures SoundChange(h, t, s, Local(h, t, s, e))
  {
    var s' := Local(h, t, s, e);
    if s' == s {
    } else if e.Begin? {
      BeginSound(h, t, s, e.proposed);
    } else if e.ReplyArrives? {
      ReceiveSound(h, t, s, e.again);
    } else if e.LocalClock? {
      ClockSound(h, t, s, e.localNow);
    } else if e.Preload? {
      PreloadSound(h, t, s);
    } else {
      assert s' == s.(phase := s'.phase);
      CountersCarry(h, s, s'.phase);
      PhaseChangeSound(h, t, s, s'.phase);
    }
  }

  // ----- the store's steps -----

  /** A request that the store does not turn away comes from the one current session. */
  lemma GrantedIsCurrent(h: Handler, w: World, i: nat)
    requires Sound(h, w) && i < |w.sessions| && Potent(w.sessions[i])
    requires w.task.state != Cancelled && w.task.runs[w.sessions[i].run].state != State.Failed
    ensures Current(w.task, w.sessions[i]) && w.task.runs[Newest(w.task)].state == Running
  {
  }

  /** What a session's request leaves alone. */
  lemma OthersStay(h: Handler, w: World, t': Task)
    requires Sound(h, w) && RowsKept(w.task, t') && |w.task.runs| <= |t'.runs|
    ensures forall j | 0 <= j < |w.sessions| :: SessionSound(h, t', w.sessions[j])
  {
    forall j | 0 <= j < |w.sessions| ensures SessionSound(h, t', w.sessions[j]) {
      SessionStays(h, w.task, t', w.sessions[j]);
    }
  }

  /** One row more, by the current session. */
  ghost predicate AddsRow(t: Task, t': Task, cp: string, v: Value) {
    && |t.runs| > 0 && SameRuns(t, t') && t'.runs[Newest(t)].available == t.runs[Newest(t)].available
    && cp !in t.checkpoints && t'.checkpoints == t.checkpoints[cp := Checkpoint(v, Newest(t))]
  }

  lemma AddsRowKeeps(t: Task, t': Task, cp: string, v: Value)
    requires RunsOk(t) && AddsRow(t, t', cp, v) && t.runs[Newest(t)].state == Running
    ensures RunsOk(t') && RowsKept(t, t') && Holds(t', cp, v) && WaitUnwritten(t')
  {
  }

  lemma CommitSound(h: Handler, w: World, i: nat, t': Task, cp: string, v: Value, phase: Phase)
    requires Sound(h, w) && i < |w.sessions| && Current(w.task, w.sessions[i])
    requires w.task.runs[Newest(w.task)].state == Running && AddsRow(w.task, t', cp, v)
    requires phase == Gone || (phase.Answered? && CountedRequest(h, w.sessions[i].(phase := phase), phase.req)
                               && AnswerStands(t', phase.req, phase.reply))
    ensures Sound(h, World(t', w.sessions[i := w.sessions[i].(phase := phase)]))
  {
    var s' := w.sessions[i].(phase := phase);
    AddsRowKeeps(w.task, t', cp, v);
    OthersStay(h, w, t');
    SleepsCarry(h, t', w.sessions[i], s');
    var w' := World(t', w.sessions[i := s']);
    CommitOneCurrent(w, i, t', s');
    forall j | 0 <= j < |w'.sessions| ensures Current(t', w'.sessions[j]) ==> Unwritten(t', w'.sessions[j]) {
      if j != i {
        NoOtherCurrent(w, i, j);
      }
    }
  }

  lemma NoOtherCurrent(w: World, i: nat, j: nat)
    requires |w.task.runs| > 0 && OneCurrent(w) && w.task.runs[Newest(w.task)].state == Running
    requires i < |w.sessions| && j < |w.sessions| && i != j && Current(w.task, w.sessions[i])
    ensures !Current(w.task, w.sessions[j])
  {
  }

  lemma CommitOneCurrent(w: World, i: nat, t': Task, s': Session)
    requires |w.task.runs| > 0 && OneCurrent(w) && i < |w.sessions| && Current(w.task, w.sessions[i])
    requires w.task.runs[Newest(w.task)].state == Running && SameRuns(w.task, t') && s'.run == w.sessions[i].run
    ensures OneCurrent(World(t', w.sessions[i := s']))
  {
    var w' := World(t', w.sessions[i := s']);
    assert Newest(t') == Newest(w.task) && t'.runs[Newest(t')].state == Running;
    forall j, k | 0 <= j < k < |w'.sessions| ensures !(Current(t', w'.sessions[j]) && Current(t', w'.sessions[k])) {
      assert j != i ==> w'.sessions[j] == w.sessions[j];
      assert k != i ==> w'.sessions[k] == w.sessions[k];
    }
  }

  /** An answer without effect on the store. */
  lemma AnswerSound(h: Handler, w: World, i: nat, phase: Phase)
    requires Sound(h, w) && i < |w.sessions| && (w.sessions[i].phase.Sent? || w.sessions[i].phase.Late?)
    requires phase == Gone
             || (phase.Answered? && phase.req == w.sessions[i].phase.req
                 && AnswerStands(w.task, phase.req, phase.reply))
    requires Potent(w.sessions[i].(phase := phase)) ==> Potent(w.sessions[i])
    ensures Sound(h, World(w.task, w.sessions[i := w.sessions[i].(phase := phase)]))
  {
    var s' := w.sessions[i].(phase := phase);
    CountersCarry(h, w.sessions[i], phase);
    PhaseChangeSound(h, w.task, w.sessions[i], phase);
    assert World(w.task, w.sessions[i := s']) == SetSession(w, i, s');
    SoundChangeKeeps(h, w, i, s');
  }

  /** The current session's request ends or parks the run: nobody is left to write for it. */
  lemma ParkSound(h: Handler, w: World, i: nat, t': Task, phase: Phase)
    requires Sound(h, w) && i < |w.sessions| && (w.sessions[i].phase.Sent? || w.sessions[i].phase.Late?)
    requires Current(w.task, w.sessions[i]) && w.task.runs[Newest(w.task)].state == Running
    requires RunsOk(t') && WaitUnwritten(t') && RowsKept(w.task, t') && |t'.runs| == |w.task.runs|
    requires phase == Gone
             || (phase.Answered? && phase.req == w.sessions[i].phase.req && AnswerStands(t', phase.req, phase.reply))
    requires !Potent(w.sessions[i].(phase := phase))
    ensures Sound(h, World(t', w.sessions[i := w.sessions[i].(phase := phase)]))
  {
    var s' := w.sessions[i].(phase := phase);
    CountersCarry(h, w.sessions[i], phase);
    OthersStay(h, w, t');
    SleepsCarry(h, t', w.sessions[i], s');
    forall j | 0 <= j < |w.sessions| && j != i ensures !Current(w.task, w.sessions[j]) {
    }
  }

  lemma ServePersistSound(h: Handler, w: World, i: nat, lease: int, after: AfterFail)
    requires Sound(h, w) && i < |w.sessions| && (w.sessions[i].phase.Sent? || w.sessions[i].phase.Late?)
    requires w.sessions[i].phase.req.Persist?
    ensures Sound(h, ServeOne(w, i, lease, after)) && RowsKept(w.task, ServeOne(w, i, lease, after).task)
  {
    var s := w.sessions[i];
    var cp, v := s.phase.req.checkpoint, s.phase.req.value;
    var (t', reply) := SetCheckpoint(w.task, s.run, cp, v, lease);
    var phase := ServedPhase(s.phase, reply);
    assert ServeOne(w, i, lease, after) == World(t', w.sessions[i := s.(phase := phase)]);
    CountersCarry(h, s, phase);
    if reply == Done {
      GrantedIsCurrent(h, w, i);
      assert AddsRow(w.task, t', cp, v);
      AddsRowKeeps(w.task, t', cp, v);
      CommitSound(h, w, i, t', cp, v, phase);
    } else {
      SetCheckpointDenied(w.task, s.run, cp, v, lease);
      AnswerSound(h, w, i, phase);
    }
  }

  lemma AwaitAdds(t: Task, cp: string, event: string)
    requires RunsOk(t) && cp !in t.checkpoints
    ensures var (t', reply) := AwaitEvent(t, Newest(t), cp, event);
            && (reply.Found? ==> AddsRow(t, t', cp, reply.value))
            && (reply.Suspended? ==> RunsOk(t') && WaitUnwritten(t') && RowsKept(t, t') && |t'.runs| == |t.runs|)
  {
  }

  lemma ServeWaitSound(h: Handler, w: World, i: nat, lease: int, after: AfterFail)
    requires Sound(h, w) && i < |w.sessions| && (w.sessions[i].phase.Sent? || w.sessions[i].phase.Late?)
    requires w.sessions[i].phase.req.Wait?
    ensures Sound(h, ServeOne(w, i, lease, after)) && RowsKept(w.task, ServeOne(w, i, lease, after).task)
  {
    var s := w.sessions[i];
    var cp, event := s.phase.req.checkpoint, s.phase.req.event;
    var (t', reply) := AwaitEvent(w.task, s.run, cp, event);
    var phase := ServedPhase(s.phase, reply);
    assert ServeOne(w, i, lease, after) == World(t', w.sessions[i := s.(phase := phase)]);
    CountersCarry(h, s, phase);
    AwaitEventDenied(w.task, s.run, cp, event);
    if cp in w.task.checkpoints || (!reply.Found? && !reply.Suspended?) {
      AnswerSound(h, w, i, phase);
    } else {
      GrantedIsCurrent(h, w, i);
      AwaitAdds(w.task, cp, event);
      if reply.Found? {
        AddsRowKeeps(w.task, t', cp, reply.value);
        CommitSound(h, w, i, t', cp, reply.value, phase);
      } else {
        ParkSound(h, w, i, t', phase);
      }
    }
  }

  lemma ServeScheduleSound(h: Handler, w: World, i: nat, lease: int, after: AfterFail)
    requires Sound(h, w) && i < |w.sessions| && (w.sessions[i].phase.Sent? || w.sessions[i].phase.Late?)
    requires w.sessions[i].phase.req.Schedule?
    ensures Sound(h, ServeOne(w, i, lease, after)) && RowsKept(w.task, ServeOne(w, i, lease, after).task)
  {
    var s := w.sessions[i];
    var (t', reply) := ScheduleRun(w.task, s.run, s.phase.req.wakeAt);
    if reply == Done {
      GrantedIsCurrent(h, w, i);
      ParkSound(h, w, i, t', ServedPhase(s.phase, reply));
    } else {
      AnswerSound(h, w, i, ServedPhase(s.phase, reply));
    }
  }

  /** What a granted schedule_run or complete_run does. */
  lemma EndsRun(t: Task, req: Request)
    requires RunsOk(t) && t.runs[Newest(t)].state == Running && (req.Schedule? || req.Complete?)
    ensures var (t', reply) := Execute(t, Newest(t), req, 0, Exhausted);
            reply == Done && RunsOk(t') && WaitUnwritten(t') && t'.checkpoints == t.checkpoints && |t'.runs| == |t.runs|
  {
  }

  lemma ServeCompleteSound(h: Handler, w: World, i: nat, lease: int, after: AfterFail)
    requires Sound(h, w) && i < |w.sessions| && (w.sessions[i].phase.Sent? || w.sessions[i].phase.Late?)
    requires w.sessions[i].phase.req.Complete?
    ensures Sound(h, ServeOne(w, i, lease, after)) && RowsKept(w.task, ServeOne(w, i, lease, after).task)
  {
    var s := w.sessions[i];
    var (t', reply) := CompleteRun(w.task, s.run, s.phase.req.result);
    assert ServeOne(w, i, lease, after) == World(t', w.sessions[i := s.(phase := ServedPhase(s.phase, reply))]);
    if reply == Done {
      GrantedIsCurrent(h, w, i);
      EndsRun(w.task, s.phase.req);
      ParkSound(h, w, i, t', ServedPhase(s.phase, reply));
    } else {
      AnswerSound(h, w, i, ServedPhase(s.phase, reply));
    }
  }

  /** When the newest run has just ended, or is too new to be claimed, no session writes for it. */
  lemma FreshSound(h: Handler, w: World, t': Task)
    requires Sound(h, w) && RunsOk(t') && WaitUnwritten(t') && RowsKept(w.task, t') && |t'.runs| >= |w.task.runs|
    requires |t'.runs| > |w.task.runs| || t'.runs[Newest(t')].state in {State.Failed, Cancelled}
    requires forall n | n in t'.checkpoints :: n in w.task.checkpoints
    ensures Sound(h, w.(task := t'))
  {
    OthersStay(h, w, t');
  }

  lemma FailSound(h: Handler, w: World, k: nat, after: AfterFail)
    requires Sound(h, w)
    ensures Sound(h, w.(task := FailRun(w.task, k, after).0)) && RowsKept(w.task, FailRun(w.task, k, after).0)
  {
    var t' := FailRun(w.task, k, after).0;
    if t' == w.task {
      assert w.(task := t') == w;
    } else {
      FreshSound(h, w, t');
    }
  }

  lemma ServeFailSound(h: Handler, w: World, i: nat, lease: int, after: AfterFail)
    requires Sound(h, w) && i < |w.sessions| && (w.sessions[i].phase.Sent? || w.sessions[i].phase.Late?)
    requires w.sessions[i].phase.req.Fail?
    ensures Sound(h, ServeOne(w, i, lease, after)) && RowsKept(w.task, ServeOne(w, i, lease, after).task)
  {
    var s := w.sessions[i];
    var (t', reply) := FailRun(w.task, s.run, after);
    FailSound(h, w, s.run, after);
    var u := w.(task := t');
    AnswerSound(h, u, i, ServedPhase(s.phase, reply));
  }

  lemma ServeSound(h: Handler, w: World, i: nat, lease: int, after: AfterFail)
    requires Sound(h, w) && i < |w.sessions|
    ensures Sound(h, ServeOne(w, i, lease, after)) && RowsKept(w.task, ServeOne(w, i, lease, after).task)
  {
    var p := w.sessions[i].phase;
    if p.Sent? || p.Late? {
      match p.req
      case Persist(_, _) => ServePersistSound(h, w, i, lease, after);
      case Wait(_, _) => ServeWaitSound(h, w, i, lease, after);
      case Schedule(_) => ServeScheduleSound(h, w, i, lease, after);
      case Complete(_) => ServeCompleteSound(h, w, i, lease, after);
      case Fail => ServeFailSound(h, w, i, lease, after);
    }
  }

  lemma GiveUpSound(h: Handler, w: World, i: nat, again: bool)
    requires Sound(h, w) && i < |w.sessions|
    ensures Sound(h, GiveUpOne(w, i, again))
  {
    var s := w.sessions[i];
    if s.phase.Sent? {
      var late, client := s.(phase := Late(s.phase.req)), AfterError(s, s.phase.req, again);
      CountersCarry(h, s, late.phase);
      PhaseChangeSound(h, w.task, s, late.phase);
      SoundChangeKeeps(h, w, i, late);
      SleepsCarry(h, w.task, s, client);
      OneMoreSound(h, SetSession(w, i, late), client);
    }
  }

  lemma OneMoreSound(h: Handler, w: World, s: Session)
    requires Sound(h, w) && SessionSound(h, w.task, s) && !Potent(s)
    ensures Sound(h, w.(sessions := w.sessions + [s]))
  {
  }

  lemma ClaimSound(h: Handler, w: World, k: nat, timeout: int)
    requires Sound(h, w) && Claimable(w.task, k)
    ensures Sound(h, Do(h, w, ClaimRun(k, timeout))) && RowsKept(w.task, Do(h, w, ClaimRun(k, timeout)).task)
  {
    var t' := Claim(w.task, k, timeout);
    assert k == Newest(w.task);
    OthersStay(h, w, t');
    var u := World(t', w.sessions + [Session(k, map[], map[], [], map[], Preloading)]);
    forall j | 0 <= j < |w.sessions| ensures !Current(t', u.sessions[j]) {
      assert !Current(w.task, w.sessions[j]);
    }
  }

  lemma CancelSound(h: Handler, w: World)
    requires Sound(h, w)
    ensures Sound(h, w.(task := CancelTask(w.task))) && RowsKept(w.task, CancelTask(w.task))
  {
    var t' := CancelTask(w.task);
    if t' == w.task {
      assert w.(task := t') == w;
    } else {
      FreshSound(h, w, t');
    }
  }

  lemma RetrySound(h: Handler, w: World)
    requires Sound(h, w)
    ensures Sound(h, w.(task := RetryTask(w.task))) && RowsKept(w.task, RetryTask(w.task))
  {
    var t' := RetryTask(w.task);
    if t' == w.task {
      assert w.(task := t') == w;
    } else {
      FreshSound(h, w, t');
    }
  }

  lemma EmitSound(h: Handler, w: World, event: string, payload: Value)
    requires Sound(h, w)
    ensures Sound(h, w.(task := EmitEvent(w.task, event, payload)))
    ensures RowsKept(w.task, EmitEvent(w.task, event, payload))
  {
    OthersStay(h, w, EmitEvent(w.task, event, payload));
  }

  /** The clock and heartbeats touch no row and no run's state. */
  lemma QuietSound(h: Handler, w: World, t': Task)
    requires Sound(h, w) && RunsOk(t') && t'.checkpoints == w.task.checkpoints && |t'.runs| == |w.task.runs|
    requires t'.runs[Newest(t')].state == w.task.runs[Newest(t')].state
    requires t'.runs[Newest(t')].wait == w.task.runs[Newest(t')].wait
    ensures Sound(h, w.(task := t')) && RowsKept(w.task, t')
  {
    OthersStay(h, w, t');
  }

  lemma UserSound(h: Handler, w: World, e: Event)
    requires Sound(h, w) && (e.CancelByUser? || e.RetryByUser? || e.Emit?)
    ensures Sound(h, Do(h, w, e)) && RowsKept(w.task, Do(h, w, e).task)
  {
    match e
    case CancelByUser => CancelSound(h, w);
    case RetryByUser => RetrySound(h, w);
    case Emit(event, payload) => EmitSound(h, w, event, payload);
  }

  lemma TimeSound(h: Handler, w: World, e: Event)
    requires Sound(h, w) && (e.TimePasses? || e.Heartbeat?)
    ensures Sound(h, Do(h, w, e)) && RowsKept(w.task, Do(h, w, e).task)
  {
    match e
    case TimePasses(d) => QuietSound(h, w, Tick(w.task, d));
    case Heartbeat(k, extendBy) => QuietSound(h, w, ExtendClaim(w.task, k, extendBy).0);
  }

  lemma QueueSound(h: Handler, w: World, e: Event)
    requires Sound(h, w) && (e.ClaimRun? || e.LeaseSweep?)
    ensures Sound(h, Do(h, w, e)) && RowsKept(w.task, Do(h, w, e).task)
  {
    match e
    case ClaimRun(k, timeout) =>
      if Claimable(w.task, k) {
        ClaimSound(h, w, k, timeout);
      }
    case LeaseSweep(k, after) =>
      FailSound(h, w, k, after);
      assert w.(task := w.task) == w;
  }

  /** Every event keeps the invariant and every row. */
  lemma DoSound(h: Handler, w: World, e: Event)
    requires Sound(h, w)
    ensures Sound(h, Do(h, w, e)) && RowsKept(w.task, Do(h, w, e).task)
  {
    if e.Serve? {
      if e.i < |w.sessions| {
        ServeSound(h, w, e.i, e.lease, e.after);
      }
    } else if e.GiveUp? {
      if e.i < |w.sessions| {
        GiveUpSound(h, w, e.i, e.again);
      }
    } else if IsLocal(e) {
      if e.i < |w.sessions| {
        LocalSound(h, w.task, w.sessions[e.i], e);
        SoundChangeKeeps(h, w, e.i, Local(h, w.task, w.sessions[e.i], e));
      }
    } else if e.ClaimRun? || e.LeaseSweep? {
      QueueSound(h, w, e);
    } else if e.TimePasses? || e.Heartbeat? {
      TimeSound(h, w, e);
    } else {
      UserSound(h, w, e);
    }
  }

  lemma {:induction false} ExecSound(h: Handler, w: World, script: seq<Event>)
    requires Sound(h, w)
    ensures Sound(h, Exec(h, w, script)) && RowsKept(w.task, Exec(h, w, script).task)
    decreases |script|
  {
    if script != [] {
      DoSound(h, w, script[0]);
      ExecSound(h, Do(h, w, script[0]), script[1..]);
    }
  }
}
