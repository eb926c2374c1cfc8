/** Every event of the replay protocol keeps the invariant; the history at most grows. */
module Steps {
  import opened Prelude
  import opened Store
  import opened Names
  import opened Replay
  import opened History
  import opened Invariant

  /** A session whose write the store accepts is the one writer of the running run. */
  lemma AcceptedIsCurrent(h: Handler, w: World, H: seq<Value>, i: nat)
    requires Inv(h, w, H) && i < |w.sessions| && Potent(w.sessions[i])
    requires w.task.state != Cancelled && w.task.runs[w.sessions[i].run].state != State.Failed
    ensures Current(w.task, w.sessions[i]) && w.task.runs[Newest(w.task)].state == Running
  {
  }

  lemma SessionGrows(h: Handler, H: seq<Value>, v: Value, runs: nat, s: Session)
    requires Fresh(h, H) && (h(H).Sleep? ==> v.Time?)
    requires SessionOk(h, H, runs, s)
    ensures Chain(h, H + [v]) && SessionOk(h, H + [v], runs, s)
  {
    TableExtend(h, H, v);
  }

  /** The parts of a task that a commit leaves alone. */
  ghost predicate SameRuns(t: Task, t': Task)
    requires |t.runs| > 0
  {
    && |t'.runs| == |t.runs|
    && t'.state == t.state && t'.result == t.result
    && (forall k | 0 <= k < |t.runs| :: t'.runs[k].state == t.runs[k].state && t'.runs[k].wait == t.runs[k].wait)
  }

  /** What a commit of `v` for the next action of `H` finds and leaves in the store. */
  ghost predicate Commits(h: Handler, t: Task, H: seq<Value>, t': Task, v: Value) {
    && Fresh(h, H) && (h(H).Sleep? ==> v.Time?) && Accepted(h(H), NameAt(h, H))
    && |t.runs| > 0 && SameRuns(t, t') && t'.events == t.events
    && (h(H).Await? ==> h(H).event in t.events && t.events[h(H).event] == v)
    && t'.checkpoints == t.checkpoints[NameAt(h, H) := Checkpoint(v, Newest(t))]
  }

  lemma HistoryGrows(h: Handler, events: map<string, Value>, H: seq<Value>, v: Value)
    requires Live(h, H) && EventsOk(h, events, H) && Fresh(h, H) && (h(H).Sleep? ==> v.Time?)
    requires Accepted(h(H), NameAt(h, H))
    requires h(H).Await? ==> h(H).event in events && events[h(H).event] == v
    ensures Live(h, H + [v]) && EventsOk(h, events, H + [v])
  {
    LiveExtend(h, H, v);
    var r := H + [v];
    assert forall i | 0 <= i < |r| :: r[..i] == if i < |H| then H[..i] else H;
  }

  lemma CommitRows(h: Handler, t: Task, H: seq<Value>, t': Task, v: Value)
    requires Commits(h, t, H, t', v) && Committed(t) == Table(h, H)
    requires forall n | n in t.checkpoints :: t.checkpoints[n].owner <= Newest(t)
    ensures Chain(h, H + [v]) && Committed(t') == Table(h, H + [v])
    ensures forall n | n in t'.checkpoints :: t'.checkpoints[n].owner <= Newest(t')
  {
    TableExtend(h, H, v);
    assert Committed(t') == Committed(t)[NameAt(h, H) := v];
  }

  lemma CommitStore(h: Handler, t: Task, H: seq<Value>, t': Task, v: Value)
    requires StoreOk(h, t, H) && Commits(h, t, H, t', v)
    requires t.runs[Newest(t)].state in {Running, Pending}
    ensures StoreOk(h, t', H + [v])
  {
    HistoryGrows(h, t.events, H, v);
    CommitRows(h, t, H, t', v);
  }

  lemma SessionsGrow(h: Handler, w: World, H: seq<Value>, v: Value)
    requires Inv(h, w, H) && Fresh(h, H) && (h(H).Sleep? ==> v.Time?)
    ensures Chain(h, H + [v])
    ensures forall j | 0 <= j < |w.sessions| :: SessionOk(h, H + [v], |w.task.runs|, w.sessions[j])
  {
    TableExtend(h, H, v);
    forall j | 0 <= j < |w.sessions| ensures SessionOk(h, H + [v], |w.task.runs|, w.sessions[j]) {
      SessionGrows(h, H, v, |w.task.runs|, w.sessions[j]);
    }
  }

  /** After a commit the writer is no longer about to write, and it stays the only one. */
  lemma CommitOneWriter(w: World, H: seq<Value>, K: seq<Value>, i: nat, t': Task, s': Session)
    requires |w.task.runs| > 0 && OneWriter(H, w) && i < |w.sessions| && Current(w.task, w.sessions[i])
    requires w.task.runs[Newest(w.task)].state == Running && SameRuns(w.task, t')
    requires s'.run == w.sessions[i].run && !AboutToWrite(s')
    ensures OneWriter(K, World(t', w.sessions[i := s']))
  {
    var w' := World(t', w.sessions[i := s']);
    assert Newest(t') == Newest(w.task) && t'.runs[Newest(t')].state == Running;
    forall j, k | 0 <= j < k < |w'.sessions| ensures !(Current(t', w'.sessions[j]) && Current(t', w'.sessions[k])) {
      assert j != i ==> w'.sessions[j] == w.sessions[j];
      assert k != i ==> w'.sessions[k] == w.sessions[k];
    }
  }

  /** The writer learns that its value is the next of the longer history. */
  lemma CommitSession(h: Handler, H: seq<Value>, v: Value, runs: nat, s: Session, phase: Phase)
    requires Chain(h, H + [v]) && SessionOk(h, H + [v], runs, s) && AboutToWrite(s) && s.seen == H
    requires phase == Gone || (phase.Answered? && WritesFor(h, s.(phase := phase), phase.req))
    requires phase.Answered? ==>
               || (phase.reply == Done && phase.req.Persist? && phase.req.value == v)
               || (phase.reply == Found(v) && phase.req.Wait?)
    ensures SessionOk(h, H + [v], runs, s.(phase := phase)) && !AboutToWrite(s.(phase := phase))
  {
    assert NextIs(H + [v], s.(phase := phase), v);
  }

  /** A committed write by the one writer extends the history by its value. */
  lemma CommitKeeps(h: Handler, w: World, H: seq<Value>, i: nat, t': Task, v: Value, phase: Phase)
    requires Inv(h, w, H) && i < |w.sessions|
    requires Current(w.task, w.sessions[i]) && AboutToWrite(w.sessions[i])
    requires w.task.runs[Newest(w.task)].state == Running && Commits(h, w.task, H, t', v)
    requires phase == Gone || (phase.Answered? && WritesFor(h, w.sessions[i].(phase := phase), phase.req))
    requires phase.Answered? ==>
               || (phase.reply == Done && phase.req.Persist? && phase.req.value == v)
               || (phase.reply == Found(v) && phase.req.Wait?)
    ensures Inv(h, World(t', w.sessions[i := w.sessions[i].(phase := phase)]), H + [v])
  {
    var s := w.sessions[i];
    assert s.seen == H;
    CommitStore(h, w.task, H, t', v);
    SessionsGrow(h, w, H, v);
    var s' := s.(phase := phase);
    CommitSession(h, H, v, |t'.runs|, s, phase);
    CommitOneWriter(w, H, H + [v], i, t', s');
  }

  /** An answer that grants nothing ends a session's power to write. */
  lemma DenyKeeps(h: Handler, w: World, H: seq<Value>, i: nat, phase: Phase)
    requires Inv(h, w, H) && i < |w.sessions| && (w.sessions[i].phase.Sent? || w.sessions[i].phase.Late?)
    requires phase == Gone
             || (phase.Answered? && phase.req == w.sessions[i].phase.req && !phase.reply.Done? && !phase.reply.Found?)
    ensures Inv(h, World(w.task, w.sessions[i := w.sessions[i].(phase := phase)]), H)
  {
    var s' := w.sessions[i].(phase := phase);
    assert forall b :: CountersOk(h, w.sessions[i], b) ==> CountersOk(h, s', b);
    assert World(w.task, w.sessions[i := s']) == SetSession(w, i, s');
    SafeChangeKeeps(h, w, H, i, s');
  }

  /** The phase after a request is served: the reply is on its way, unless nobody waits for it. */
  function ServedPhase(p: Phase, reply: Reply): Phase
    requires p.Sent? || p.Late?
  {
    if p.Sent? then Answered(p.req, reply) else Gone
  }

  /** What an accepted write does to the store. */
  lemma SetCheckpointAccepted(h: Handler, t: Task, H: seq<Value>, v: Value, lease: int)
    requires StoreOk(h, t, H) && Fresh(h, H) && !h(H).Await? && (h(H).Sleep? ==> v.Time?)
    requires SetCheckpoint(t, Newest(t), NameAt(h, H), v, lease).1 == Done
    ensures Commits(h, t, H, SetCheckpoint(t, Newest(t), NameAt(h, H), v, lease).0, v)
  {
  }

  lemma SetCheckpointDenied(t: Task, k: nat, name: string, v: Value, lease: int)
    requires SetCheckpoint(t, k, name, v, lease).1 != Done
    ensures var (t', reply) := SetCheckpoint(t, k, name, v, lease); t' == t && !reply.Found?
  {
  }

  lemma ServePersist(h: Handler, w: World, H: seq<Value>, i: nat, lease: int, after: AfterFail) returns (H': seq<Value>)
    requires Inv(h, w, H) && i < |w.sessions|
    requires w.sessions[i].phase.Sent? || w.sessions[i].phase.Late?
    requires w.sessions[i].phase.req.Persist?
    ensures H <= H' && Inv(h, ServeOne(w, i, lease, after), H')
  {
    var s := w.sessions[i];
    var req := s.phase.req;
    var (t', reply) := SetCheckpoint(w.task, s.run, req.checkpoint, req.value, lease);
    var phase := ServedPhase(s.phase, reply);
    assert ServeOne(w, i, lease, after) == World(t', w.sessions[i := s.(phase := phase)]);
    if reply == Done {
      AcceptedIsCurrent(h, w, H, i);
      assert s.seen == H;
      SetCheckpointAccepted(h, w.task, H, req.value, lease);
      CarryCounters(h, s, phase);
      CommitKeeps(h, w, H, i, t', req.value, phase);
      H' := H + [req.value];
    } else {
      SetCheckpointDenied(w.task, s.run, req.checkpoint, req.value, lease);
      DenyKeeps(h, w, H, i, phase);
      H' := H;
    }
  }

  /** Waiting parks the run: nobody is left to write for it until the event arrives. */
  lemma ParkKeeps(h: Handler, w: World, H: seq<Value>, i: nat, t': Task, phase: Phase)
    requires Inv(h, w, H) && i < |w.sessions|
    requires w.sessions[i].phase.Sent? || w.sessions[i].phase.Late?
    requires Current(w.task, w.sessions[i]) && w.task.runs[Newest(w.task)].state == Running
    requires phase == Gone
             || (phase.Answered? && phase.req == w.sessions[i].phase.req && !Potent(w.sessions[i].(phase := phase))
                               && PhaseOk(h, H, w.sessions[i].(phase := phase)))
    requires StoreOk(h, t', H) && |t'.runs| == |w.task.runs|
    ensures Inv(h, World(t', w.sessions[i := w.sessions[i].(phase := phase)]), H)
  {
    var s' := w.sessions[i].(phase := phase);
    assert SessionOk(h, H, |t'.runs|, s');
    forall j | 0 <= j < |w.sessions| && j != i ensures !Current(w.task, w.sessions[j]) {
    }
  }

  lemma CarryCounters(h: Handler, s: Session, phase: Phase)
    ensures forall b :: CountersOk(h, s, b) ==> CountersOk(h, s.(phase := phase), b)
  {
  }

  lemma FoundIsNext(h: Handler, w: World, H: seq<Value>, i: nat)
    requires Inv(h, w, H) && i < |w.sessions|
    requires w.sessions[i].phase.Sent? || w.sessions[i].phase.Late?
    requires w.sessions[i].phase.req.Wait? && w.sessions[i].phase.req.checkpoint in w.task.checkpoints
    ensures NextIs(H, w.sessions[i], w.task.checkpoints[w.sessions[i].phase.req.checkpoint].value)
  {
    var s := w.sessions[i];
    var cp := s.phase.req.checkpoint;
    assert cp in Committed(w.task) && Committed(w.task)[cp] == w.task.checkpoints[cp].value;
    assert s.seen != H;
    SeenRow(h, H, s);
  }

  /** A wait whose checkpoint is already filled is answered from it. */
  lemma AlreadyThere(h: Handler, w: World, H: seq<Value>, i: nat, phase: Phase)
    requires Inv(h, w, H) && i < |w.sessions|
    requires w.sessions[i].phase.Sent? || w.sessions[i].phase.Late?
    requires w.sessions[i].phase.req.Wait?
    requires phase == Gone || (phase.Answered? && phase.req == w.sessions[i].phase.req && phase.reply.Found?
                               && NextIs(H, w.sessions[i], phase.reply.value))
    ensures Inv(h, World(w.task, w.sessions[i := w.sessions[i].(phase := phase)]), H)
  {
    var s := w.sessions[i];
    var s' := s.(phase := phase);
    CarryCounters(h, s, phase);
    assert SafeChange(h, H, |w.task.runs|, s, s');
    assert World(w.task, w.sessions[i := s']) == SetSession(w, i, s');
    SafeChangeKeeps(h, w, H, i, s');
  }

  lemma AwaitEventDenied(t: Task, k: nat, name: string, event: string)
    ensures var (t', reply) := AwaitEvent(t, k, name, event);
            && !reply.Done?
            && (!reply.Found? && !reply.Suspended? ==> t' == t)
            && (name in t.checkpoints && (reply.Found? || reply.Suspended?) ==>
                t' == t && reply == Found(t.checkpoints[name].value))
  {
  }

  /** A wait that finds the event takes it into the checkpoint; one that does not parks the run. */
  lemma AwaitEventGranted(h: Handler, t: Task, H: seq<Value>)
    requires StoreOk(h, t, H) && Fresh(h, H) && h(H).Await?
    ensures var (t', reply) := AwaitEvent(t, Newest(t), NameAt(h, H), h(H).event);
            && (reply.Found? ==> Commits(h, t, H, t', reply.value))
            && (reply.Suspended? ==> StoreOk(h, t', H) && |t'.runs| == |t.runs|)
  {
    var (t', reply) := AwaitEvent(t, Newest(t), NameAt(h, H), h(H).event);
    assert NameAt(h, H) !in Committed(t);
    if reply.Suspended? {
      assert Committed(t') == Committed(t);
    }
  }

  lemma ServeWait(h: Handler, w: World, H: seq<Value>, i: nat, lease: int, after: AfterFail) returns (H': seq<Value>)
    requires Inv(h, w, H) && i < |w.sessions|
    requires w.sessions[i].phase.Sent? || w.sessions[i].phase.Late?
    requires w.sessions[i].phase.req.Wait?
    ensures H <= H' && Inv(h, ServeOne(w, i, lease, after), H')
  {
    var s := w.sessions[i];
    var req := s.phase.req;
    var cp := req.checkpoint;
    var (t', reply) := AwaitEvent(w.task, s.run, cp, req.event);
    var phase := ServedPhase(s.phase, reply);
    assert ServeOne(w, i, lease, after) == World(t', w.sessions[i := s.(phase := phase)]);
    AwaitEventDenied(w.task, s.run, cp, req.event);
    CarryCounters(h, s, phase);
    H' := H;
    if !reply.Found? && !reply.Suspended? {
      DenyKeeps(h, w, H, i, phase);
    } else if cp in w.task.checkpoints {
      FoundIsNext(h, w, H, i);
      AlreadyThere(h, w, H, i, phase);
    } else {
      AcceptedIsCurrent(h, w, H, i);
      assert s.seen == H;
      AwaitEventGranted(h, w.task, H);
      if reply.Found? {
        CommitKeeps(h, w, H, i, t', reply.value, phase);
        H' := H + [reply.value];
      } else {
        ParkKeeps(h, w, H, i, t', phase);
      }
    }
  }

  lemma ServeSchedule(h: Handler, w: World, H: seq<Value>, i: nat, lease: int, after: AfterFail)
    requires Inv(h, w, H) && i < |w.sessions|
    requires w.sessions[i].phase.Sent? || w.sessions[i].phase.Late?
    requires w.sessions[i].phase.req.Schedule?
    ensures Inv(h, ServeOne(w, i, lease, after), H)
  {
    var s := w.sessions[i];
    var (t', reply) := ScheduleRun(w.task, s.run, s.phase.req.wakeAt);
    if reply == Done {
      AcceptedIsCurrent(h, w, H, i);
      assert Committed(t') == Committed(w.task);
      ParkKeeps(h, w, H, i, t', ServedPhase(s.phase, reply));
    } else {
      DenyKeeps(h, w, H, i, ServedPhase(s.phase, reply));
    }
  }

  /** A handler that has returned has seen the whole history. */
  lemma ReturnedAtEnd(h: Handler, H: seq<Value>, p: seq<Value>)
    requires Chain(h, H) && p <= H && h(p).Return?
    ensures p == H
  {
    assert H[..|p|] == p;
  }

  lemma ServeComplete(h: Handler, w: World, H: seq<Value>, i: nat, lease: int, after: AfterFail)
    requires Inv(h, w, H) && i < |w.sessions|
    requires w.sessions[i].phase.Sent? || w.sessions[i].phase.Late?
    requires w.sessions[i].phase.req.Complete?
    ensures Inv(h, ServeOne(w, i, lease, after), H)
  {
    var s := w.sessions[i];
    var (t', reply) := CompleteRun(w.task, s.run, s.phase.req.result);
    ReturnedAtEnd(h, H, s.seen);
    if reply == Done {
      AcceptedIsCurrent(h, w, H, i);
      assert Committed(t') == Committed(w.task);
      ParkKeeps(h, w, H, i, t', ServedPhase(s.phase, reply));
    } else {
      DenyKeeps(h, w, H, i, ServedPhase(s.phase, reply));
    }
  }

  /** Failing a run keeps the store's part of the invariant; no session works on what follows. */
  lemma FailStore(h: Handler, t: Task, H: seq<Value>, k: nat, after: AfterFail)
    requires StoreOk(h, t, H)
    ensures var t' := FailRun(t, k, after).0;
            && StoreOk(h, t', H)
            && |t'.runs| >= |t.runs|
            && (t' != t ==> |t'.runs| > |t.runs| || t'.runs[Newest(t')].state == State.Failed)
  {
    var t' := FailRun(t, k, after).0;
    assert Committed(t') == Committed(t);
  }

  /** When the newest run has just failed, or is too new to be claimed, no session writes for it. */
  lemma FreshKeeps(h: Handler, w: World, H: seq<Value>, t': Task)
    requires Inv(h, w, H) && StoreOk(h, t', H) && |t'.runs| >= |w.task.runs|
    requires |t'.runs| > |w.task.runs| || t'.runs[Newest(t')].state in {State.Failed, Cancelled}
    ensures Inv(h, w.(task := t'), H)
  {
  }

  lemma FailKeeps(h: Handler, w: World, H: seq<Value>, k: nat, after: AfterFail)
    requires Inv(h, w, H)
    ensures Inv(h, w.(task := FailRun(w.task, k, after).0), H)
  {
    FailStore(h, w.task, H, k, after);
    var t' := FailRun(w.task, k, after).0;
    if t' != w.task {
      FreshKeeps(h, w, H, t');
    } else {
      assert w.(task := t') == w;
    }
  }

  lemma ServeFail(h: Handler, w: World, H: seq<Value>, i: nat, lease: int, after: AfterFail)
    requires Inv(h, w, H) && i < |w.sessions|
    requires w.sessions[i].phase.Sent? || w.sessions[i].phase.Late?
    requires w.sessions[i].phase.req.Fail?
    ensures Inv(h, ServeOne(w, i, lease, after), H)
  {
    var s := w.sessions[i];
    var (t', reply) := FailRun(w.task, s.run, after);
    FailKeeps(h, w, H, s.run, after);
    var u := w.(task := t');
    var s' := s.(phase := ServedPhase(s.phase, reply));
    assert SafeChange(h, H, |t'.runs|, s, s');
    SafeChangeKeeps(h, u, H, i, s');
  }

  /** A client that treats its call as failed can write no more. */
  lemma ErrorSession(h: Handler, H: seq<Value>, runs: nat, s: Session, fac: bool)
    requires Chain(h, H) && SessionOk(h, H, runs, s) && s.phase.Sent?
    ensures var client := AfterError(s, s.phase.req, fac);
            SessionOk(h, H, runs, client) && !Potent(client)
  {
  }

  lemma GiveUpKeeps(h: Handler, w: World, H: seq<Value>, i: nat, fac: bool)
    requires Inv(h, w, H) && i < |w.sessions|
    ensures Inv(h, GiveUpOne(w, i, fac), H)
  {
    var s := w.sessions[i];
    if s.phase.Sent? {
      CrashSafe(h, H, |w.task.runs|, s);
      SafeChangeKeeps(h, w, H, i, s.(phase := Late(s.phase.req)));
      ErrorSession(h, H, |w.task.runs|, s, fac);
      OneMorePowerless(h, SetSession(w, i, s.(phase := Late(s.phase.req))), H, AfterError(s, s.phase.req, fac));
    }
  }

  lemma OneMorePowerless(h: Handler, w: World, H: seq<Value>, s: Session)
    requires Inv(h, w, H) && SessionOk(h, H, |w.task.runs|, s) && !Potent(s)
    ensures Inv(h, w.(sessions := w.sessions + [s]), H)
  {
  }

  lemma ClaimKeeps(h: Handler, w: World, H: seq<Value>, k: nat, timeout: int)
    requires Inv(h, w, H) && Claimable(w.task, k)
    ensures Inv(h, Do(h, w, ClaimRun(k, timeout)), H)
  {
    var t' := Claim(w.task, k, timeout);
    var s := Session(k, map[], map[], [], map[], Preloading);
    assert k == Newest(w.task);
    assert Committed(t') == Committed(w.task);
    assert StoreOk(h, t', H);
    assert SessionOk(h, H, |t'.runs|, s);
    var u := World(t', w.sessions + [s]);
    forall j | 0 <= j < |w.sessions| ensures !Current(t', u.sessions[j]) && SessionOk(h, H, |t'.runs|, u.sessions[j]) {
    }
  }

  lemma CancelKeeps(h: Handler, w: World, H: seq<Value>)
    requires Inv(h, w, H)
    ensures Inv(h, w.(task := CancelTask(w.task)), H)
  {
    var t' := CancelTask(w.task);
    assert Committed(t') == Committed(w.task);
    if t' != w.task {
      assert StoreOk(h, t', H);
      FreshKeeps(h, w, H, t');
    } else {
      assert w.(task := t') == w;
    }
  }

  lemma RetryKeeps(h: Handler, w: World, H: seq<Value>)
    requires Inv(h, w, H)
    ensures Inv(h, w.(task := RetryTask(w.task)), H)
  {
    var t' := RetryTask(w.task);
    assert Committed(t') == Committed(w.task);
    if t' != w.task {
      assert StoreOk(h, t', H);
      FreshKeeps(h, w, H, t');
    } else {
      assert w.(task := t') == w;
    }
  }

  lemma EmissionStored(h: Handler, t: Task, H: seq<Value>, event: string, payload: Value)
    requires StoreOk(h, t, H) && !Blank(event) && event !in t.events && WaitsFor(t.runs[Newest(t)], event)
    ensures Fresh(h, H) && h(H).Await? && StoreOk(h, EmitEvent(t, event, payload), H + [payload])
  {
    var woken := t.(runs := t.runs[Newest(t) := Run(Pending, Some(t.now), None, None)], state := Pending,
                    events := t.events[event := payload]);
    assert Committed(woken) == Committed(t);
    CommitStore(h, woken, H, EmitEvent(t, event, payload), payload);
  }

  /** The emission that a parked run waits for commits its payload. */
  lemma EmitWakes(h: Handler, w: World, H: seq<Value>, event: string, payload: Value)
    requires Inv(h, w, H) && !Blank(event) && event !in w.task.events && WaitsFor(w.task.runs[Newest(w.task)], event)
    ensures Inv(h, w.(task := EmitEvent(w.task, event, payload)), H + [payload])
  {
    EmissionStored(h, w.task, H, event, payload);
    SessionsGrow(h, w, H, payload);
  }

  lemma EmitKeeps(h: Handler, w: World, H: seq<Value>, event: string, payload: Value) returns (H': seq<Value>)
    requires Inv(h, w, H)
    ensures H <= H' && Inv(h, w.(task := EmitEvent(w.task, event, payload)), H')
  {
    var t := w.task;
    H' := H;
    if !Blank(event) && event !in t.events && WaitsFor(t.runs[Newest(t)], event) {
      EmitWakes(h, w, H, event, payload);
      H' := H + [payload];
    } else {
      assert Committed(EmitEvent(t, event, payload)) == Committed(t);
    }
  }

  /** A store whose runs stand as before keeps it. */
  lemma SameRunsKeep(h: Handler, w: World, H: seq<Value>, t': Task)
    requires Inv(h, w, H) && StoreOk(h, t', H) && |t'.runs| == |w.task.runs|
    requires t'.runs[Newest(t')].state == w.task.runs[Newest(t')].state
    ensures Inv(h, w.(task := t'), H)
  {
  }

  lemma TickKeeps(h: Handler, w: World, H: seq<Value>, d: nat)
    requires Inv(h, w, H)
    ensures Inv(h, w.(task := Tick(w.task, d)), H)
  {
    assert Committed(Tick(w.task, d)) == Committed(w.task);
    SameRunsKeep(h, w, H, Tick(w.task, d));
  }

  lemma ExtendedStore(h: Handler, t: Task, H: seq<Value>, k: nat, extendBy: int)
    requires StoreOk(h, t, H)
    ensures var t' := ExtendClaim(t, k, extendBy).0;
            StoreOk(h, t', H) && |t'.runs| == |t.runs| && t'.runs[Newest(t')].state == t.runs[Newest(t)].state
  {
    assert Committed(ExtendClaim(t, k, extendBy).0) == Committed(t);
  }

  /** A heartbeat, even a zombie's, changes nothing but the lease. */
  lemma HeartbeatKeeps(h: Handler, w: World, H: seq<Value>, k: nat, extendBy: int)
    requires Inv(h, w, H)
    ensures Inv(h, w.(task := ExtendClaim(w.task, k, extendBy).0), H)
  {
    ExtendedStore(h, w.task, H, k, extendBy);
    SameRunsKeep(h, w, H, ExtendClaim(w.task, k, extendBy).0);
  }

  lemma ServeKeeps(h: Handler, w: World, H: seq<Value>, i: nat, lease: int, after: AfterFail) returns (H': seq<Value>)
    requires Inv(h, w, H) && i < |w.sessions|
    ensures H <= H' && Inv(h, ServeOne(w, i, lease, after), H')
  {
    H' := H;
    var p := w.sessions[i].phase;
    if p.Sent? || p.Late? {
      match p.req
      case Persist(_, _) => H' := ServePersist(h, w, H, i, lease, after);
      case Wait(_, _) => H' := ServeWait(h, w, H, i, lease, after);
      case Schedule(_) => ServeSchedule(h, w, H, i, lease, after);
      case Complete(_) => ServeComplete(h, w, H, i, lease, after);
      case Fail => ServeFail(h, w, H, i, lease, after);
    }
  }

  /** Events of one session's client. */
  predicate IsLocal(e: Event) {
    !(e.ClaimRun? || e.LeaseSweep? || e.CancelByUser? || e.RetryByUser? || e.Emit? || e.TimePasses? || e.Heartbeat?
        || e.Serve? || e.GiveUp?)
  }

  lemma LocalKeeps(h: Handler, w: World, H: seq<Value>, e: Event)
    requires NoHarmfulCollision(h) && Inv(h, w, H) && IsLocal(e)
    ensures Inv(h, Do(h, w, e), H)
  {
    if e.i < |w.sessions| {
      LocalSafe(h, w.task, H, w.sessions[e.i], e);
      SafeChangeKeeps(h, w, H, e.i, Local(h, w.task, w.sessions[e.i], e));
    }
  }

  lemma SweepKeeps(h: Handler, w: World, H: seq<Value>, k: nat, after: AfterFail)
    requires Inv(h, w, H)
    ensures Inv(h, w.(task := Sweep(w.task, k, after)), H)
  {
    FailKeeps(h, w, H, k, after);
    assert w.(task := w.task) == w;
  }

  /** Events of the queue and the user. */
  lemma QueueKeeps(h: Handler, w: World, H: seq<Value>, e: Event)
    requires Inv(h, w, H)
    requires e.ClaimRun? || e.LeaseSweep? || e.CancelByUser? || e.RetryByUser?
    ensures Inv(h, Do(h, w, e), H)
  {
    match e
    case ClaimRun(k, timeout) =>
      if Claimable(w.task, k) {
        ClaimKeeps(h, w, H, k, timeout);
      }
    case LeaseSweep(k, after) => SweepKeeps(h, w, H, k, after);
    case CancelByUser => CancelKeeps(h, w, H);
    case RetryByUser => RetryKeeps(h, w, H);
  }

  /** Events that leave the history as it is. */
  lemma StillKeeps(h: Handler, w: World, H: seq<Value>, e: Event)
    requires NoHarmfulCollision(h) && Inv(h, w, H) && !e.Emit? && !e.Serve?
    ensures Inv(h, Do(h, w, e), H)
  {
    if e.GiveUp? {
      if e.i < |w.sessions| {
        GiveUpKeeps(h, w, H, e.i, e.again);
      }
    } else if IsLocal(e) {
      LocalKeeps(h, w, H, e);
    } else if e.TimePasses? {
      TickKeeps(h, w, H, e.d);
    } else if e.Heartbeat? {
      HeartbeatKeeps(h, w, H, e.run, e.extendBy);
    } else {
      QueueKeeps(h, w, H, e);
    }
  }

  lemma EmittedKeeps(h: Handler, w: World, H: seq<Value>, e: Event) returns (H': seq<Value>)
    requires Inv(h, w, H) && e.Emit?
    ensures H <= H' && Inv(h, Do(h, w, e), H')
  {
    H' := EmitKeeps(h, w, H, e.event, e.payload);
  }

  lemma ServedKeeps(h: Handler, w: World, H: seq<Value>, e: Event) returns (H': seq<Value>)
    requires Inv(h, w, H) && e.Serve?
    ensures H <= H' && Inv(h, Do(h, w, e), H')
  {
    H' := H;
    if e.i < |w.sessions| {
      H' := ServeKeeps(h, w, H, e.i, e.lease, e.after);
    }
  }

  /** One event: the invariant holds again, for a history that extends the old one. */
  lemma DoKeeps(h: Handler, w: World, H: seq<Value>, e: Event) returns (H': seq<Value>)
    requires NoHarmfulCollision(h) && Inv(h, w, H)
    ensures H <= H' && Inv(h, Do(h, w, e), H')
  {
    if e.Emit? {
      H' := EmittedKeeps(h, w, H, e);
    } else if e.Serve? {
      H' := ServedKeeps(h, w, H, e);
    } else {
      H' := H;
      StillKeeps(h, w, H, e);
    }
  }
}
